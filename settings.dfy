/** The slice of the user settings record that the Pro selector reads and
    writes, the partial updates it sends to the settings store, and the
    store's shallow merge. */
module UserSettings {
  import opened Wrappers

  /** A settings snapshot. Every field may be absent from the stored record.
      The smart-context option is kept as the raw stored string: the selector
      compares it with string literals and tolerates any other value. */
  datatype Settings = Settings(
    enableDyadPro: Option<bool>,
    enableProWebSearch: Option<bool>,
    enableProLazyEditsMode: Option<bool>,
    enableProSmartFilesContextMode: Option<bool>,
    proSmartContextOption: Option<string>)

  /** The record with no field present. */
  const Blank := Settings(None, None, None, None, None)

  /** A partial update. `None` leaves a field as it is; for the option field,
      `Some(None)` writes "absent" (the source's `undefined`), which differs from
      not naming the field at all. */
  datatype Patch = Patch(
    enableDyadPro: Option<bool>,
    enableProWebSearch: Option<bool>,
    enableProLazyEditsMode: Option<bool>,
    enableProSmartFilesContextMode: Option<bool>,
    proSmartContextOption: Option<Option<string>>)

  /** The partial update that names no field. */
  const Untouched := Patch(None, None, None, None, None)

  /** The three plain on/off switches of the selector. */
  datatype Flag = DyadPro | WebSearch | LazyEdits

  /** `settings?.<flag>`: the stored value of a switch, absent when there is
      no snapshot. */
  function Get(s: Option<Settings>, f: Flag): (v: Option<bool>)
    ensures s.None? ==> v.None?
  {
    match s
    case None => None
    case Some(r) =>
      match f
      case DyadPro => r.enableDyadPro
      case WebSearch => r.enableProWebSearch
      case LazyEdits => r.enableProLazyEditsMode
  }

  /** The value a patch writes to a switch, if it names it. */
  function PatchGet(p: Patch, f: Flag): Option<bool>
  {
    match f
    case DyadPro => p.enableDyadPro
    case WebSearch => p.enableProWebSearch
    case LazyEdits => p.enableProLazyEditsMode
  }

  /** JavaScript truthiness of an optional boolean (`Boolean(x)`, and the
      negation of `!x`): absent counts as false. */
  function Truthy(v: Option<bool>): (b: bool)
    ensures b <==> v == Some(true)
  {
    match v
    case Some(x) => x
    case None => false
  }

  /** `settings?.enableProSmartFilesContextMode`, absent without a snapshot. */
  function Gate(s: Option<Settings>): (g: Option<bool>)
    ensures Truthy(g) <==> s.Some? && s.value.enableProSmartFilesContextMode == Some(true)
  {
    if s.Some? then s.value.enableProSmartFilesContextMode else None
  }

  /** `settings?.proSmartContextOption`, absent without a snapshot. */
  function StoredOption(s: Option<Settings>): (o: Option<string>)
    ensures o.Some? <==> s.Some? && s.value.proSmartContextOption.Some?
    ensures o.Some? ==> o == s.value.proSmartContextOption
  {
    if s.Some? then s.value.proSmartContextOption else None
  }

  function Overwrite<T>(current: Option<T>, update: Option<T>): Option<T>
  {
    if update.Some? then update else current
  }

  /** The store's shallow merge: every field the patch names is replaced by
      the patch's value, every other field keeps the snapshot's value. Merging
      into a missing snapshot starts from the record with no field present. */
  function Merge(s: Option<Settings>, p: Patch): (r: Settings)
    ensures forall f: Flag :: Get(Some(r), f) == (if PatchGet(p, f).Some? then PatchGet(p, f) else Get(s, f))
    ensures Gate(Some(r)) == (if p.enableProSmartFilesContextMode.Some? then p.enableProSmartFilesContextMode else Gate(s))
    ensures StoredOption(Some(r)) == (if p.proSmartContextOption.Some? then p.proSmartContextOption.value else StoredOption(s))
  {
    var b := s.GetOr(Blank);
    Settings(
      Overwrite(b.enableDyadPro, p.enableDyadPro),
      Overwrite(b.enableProWebSearch, p.enableProWebSearch),
      Overwrite(b.enableProLazyEditsMode, p.enableProLazyEditsMode),
      Overwrite(b.enableProSmartFilesContextMode, p.enableProSmartFilesContextMode),
      if p.proSmartContextOption.Some? then p.proSmartContextOption.value else b.proSmartContextOption)
  }

  /** Merging the same patch a second time changes nothing. */
  lemma MergeIdempotent(s: Option<Settings>, p: Patch)
    ensures Merge(Some(Merge(s, p)), p) == Merge(s, p)
  {
  }

  /** A patch that names nothing leaves a present snapshot as it was. */
  lemma MergeUntouched(s: Settings)
    ensures Merge(Some(s), Untouched) == s
  {
  }
}

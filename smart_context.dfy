/** Smart context: the mode shown to the user is derived from two stored
    fields, and selecting a mode becomes a partial update of those two
    fields. */
module SmartContext {
  import opened Wrappers
  import opened UserSettings

  /** The four smart-context modes the selector offers. */
  datatype Mode = Off | Conservative | Balanced | V3

  /** The string the selector uses for a mode. */
  function Name(m: Mode): string
  {
    match m
    case Off => "off"
    case Conservative => "conservative"
    case Balanced => "balanced"
    case V3 => "v3"
  }

  /** Whether a stored option is one of the three the derivation recognises. */
  predicate Recognised(o: Option<string>)
  {
    o == Some("balanced") || o == Some("conservative") || o == Some("v3")
  }

  /** Whether smart context is switched on: a snapshot exists and its gate is
      truthy. */
  predicate GateOn(s: Option<Settings>)
  {
    Truthy(Gate(s))
  }

  /** The mode the selector highlights for a snapshot (`getCurrentValue`).
      Total: every snapshot, including none at all, yields one mode. A false or
      absent gate yields `Off` whatever option is stored; a truthy gate yields
      the stored option when it is recognised and `Balanced` otherwise. */
  function DeriveMode(s: Option<Settings>): (m: Mode)
    ensures !GateOn(s) ==> m == Off
    ensures GateOn(s) && Recognised(StoredOption(s)) ==> m != Off && StoredOption(s) == Some(Name(m))
    ensures GateOn(s) && !Recognised(StoredOption(s)) ==> m == Balanced
  {
    if s.None? || !Truthy(s.value.enableProSmartFilesContextMode) then Off
    else if s.value.proSmartContextOption == Some("balanced") then Balanced
    else if s.value.proSmartContextOption == Some("conservative") then Conservative
    else if s.value.proSmartContextOption == Some("v3") then V3
    else Balanced
  }

  /** The partial update sent when the user picks a mode
      (`handleSmartContextChange`). `Off` switches the gate off and clears the
      option; any other mode switches the gate on and stores that mode's
      name. No other field is named. */
  function SmartContextUpdate(m: Mode): (p: Patch)
    ensures p.enableProSmartFilesContextMode == Some(m != Off)
    ensures m == Off ==> p.proSmartContextOption == Some(None)
    ensures m != Off ==> p.proSmartContextOption == Some(Some(Name(m)))
    ensures forall f: Flag :: PatchGet(p, f).None?
  {
    match m
    case Off => Patch(None, None, None, Some(false), Some(None))
    case Conservative => Patch(None, None, None, Some(true), Some(Some("conservative")))
    case Balanced => Patch(None, None, None, Some(true), Some(Some("balanced")))
    case V3 => Patch(None, None, None, Some(true), Some(Some("v3")))
  }

  /** Selecting a mode and deriving again yields that mode, from any snapshot
      (including none): every mode is reachable from every other in one step. */
  lemma SelectThenDerive(s: Option<Settings>, m: Mode)
    ensures DeriveMode(Some(Merge(s, SmartContextUpdate(m)))) == m
  {
  }

  /** Selecting the same mode twice leaves the same settings as selecting it
      once. */
  lemma SelectIdempotent(s: Option<Settings>, m: Mode)
    ensures Merge(Some(Merge(s, SmartContextUpdate(m))), SmartContextUpdate(m)) == Merge(s, SmartContextUpdate(m))
  {
  }

  /** A mode selection leaves the three switches as they were. */
  lemma SelectKeepsSwitches(s: Option<Settings>, m: Mode, f: Flag)
    ensures Get(Some(Merge(s, SmartContextUpdate(m))), f) == Get(s, f)
  {
  }

  /** Reading tolerates a stale option while the gate is off, but writing `Off`
      clears it: after selecting `Off` no option is stored, so from a snapshot
      whose gate is off and whose option is stale the update yields a different
      record that still derives the same `Off`. */
  lemma OffAsymmetry(s: Option<Settings>)
    ensures StoredOption(Some(Merge(s, SmartContextUpdate(Off)))) == None
    ensures Gate(Some(Merge(s, SmartContextUpdate(Off)))) == Some(false)
    ensures s.Some? && !GateOn(s) && StoredOption(s).Some? ==>
      Merge(s, SmartContextUpdate(Off)) != s.value && DeriveMode(Some(Merge(s, SmartContextUpdate(Off)))) == DeriveMode(s) == Off
  {
  }

  /** The derived mode depends on the gate and the stored option only: two
      snapshots that agree on those two fields derive the same mode. */
  lemma DeriveModeDependsOnSmartFieldsOnly(s: Option<Settings>, t: Option<Settings>)
    requires Gate(s) == Gate(t) && StoredOption(s) == StoredOption(t)
    ensures DeriveMode(s) == DeriveMode(t)
  {
  }
}

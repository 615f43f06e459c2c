/** The three on/off switches (`toggleProEnabled`, `toggleWebSearch`,
    `toggleLazyEdits`): each negates one flag read from the snapshot. */
module Toggles {
  import opened Wrappers
  import opened UserSettings
  import opened SmartContext

  /** The partial update a switch sends: its own flag, set to the negation of
      the snapshot's value (absent or no snapshot read as false), and nothing
      else. */
  function ToggleUpdate(s: Option<Settings>, f: Flag): (p: Patch)
    ensures PatchGet(p, f) == Some(Get(s, f) != Some(true))
    ensures forall g: Flag :: g != f ==> PatchGet(p, g).None?
    ensures p.enableProSmartFilesContextMode.None? && p.proSmartContextOption.None?
  {
    match f
    case DyadPro => Patch(Some(!Truthy(Get(s, DyadPro))), None, None, None, None)
    case WebSearch => Patch(None, Some(!Truthy(Get(s, WebSearch))), None, None, None)
    case LazyEdits => Patch(None, None, Some(!Truthy(Get(s, LazyEdits))), None, None)
  }

  /** After the merge the switch holds the negation of what was shown, every
      other switch is unchanged, and so are the smart-context fields and hence
      the derived mode. */
  lemma ToggleEffect(s: Option<Settings>, f: Flag)
    ensures Get(Some(Merge(s, ToggleUpdate(s, f))), f) == Some(!Truthy(Get(s, f)))
    ensures forall g: Flag :: g != f ==> Get(Some(Merge(s, ToggleUpdate(s, f))), g) == Get(s, g)
    ensures Gate(Some(Merge(s, ToggleUpdate(s, f)))) == Gate(s)
    ensures StoredOption(Some(Merge(s, ToggleUpdate(s, f)))) == StoredOption(s)
    ensures DeriveMode(Some(Merge(s, ToggleUpdate(s, f)))) == DeriveMode(s)
  {
  }

  /** Toggling twice, each time from the fresh snapshot, restores a present
      flag exactly; an absent flag comes back as an explicit `false`, which is
      shown the same way. */
  lemma ToggleTwice(s: Option<Settings>, f: Flag)
    ensures Get(s, f).Some? ==> Get(Some(Merge(Some(Merge(s, ToggleUpdate(s, f))), ToggleUpdate(Some(Merge(s, ToggleUpdate(s, f))), f))), f) == Get(s, f)
    ensures Get(s, f).None? ==> Get(Some(Merge(Some(Merge(s, ToggleUpdate(s, f))), ToggleUpdate(Some(Merge(s, ToggleUpdate(s, f))), f))), f) == Some(false)
  {
  }

  /** The update is absolute, not relative: two clicks handled against the
      same stale snapshot send the same patch, and the second merge changes
      nothing, so the flag is flipped once rather than twice. */
  lemma StaleDoubleToggle(s: Option<Settings>, f: Flag)
    ensures Merge(Some(Merge(s, ToggleUpdate(s, f))), ToggleUpdate(s, f)) == Merge(s, ToggleUpdate(s, f))
    ensures Get(Some(Merge(Some(Merge(s, ToggleUpdate(s, f))), ToggleUpdate(s, f))), f) == Some(!Truthy(Get(s, f)))
  {
  }
}

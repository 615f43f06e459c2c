/** A sequence of user actions on the selector, each handled against the
    snapshot produced by the previous one, as the store applies merges one at
    a time in the order they were submitted. */
module Session {
  import opened Wrappers
  import opened UserSettings
  import opened SmartContext
  import opened Toggles

  /** One click: a smart-context button or one of the three switches. */
  datatype Intent = Select(mode: Mode) | Toggle(flag: Flag)

  /** The partial update an action sends, computed from the current snapshot. */
  function IntentUpdate(s: Option<Settings>, i: Intent): (p: Patch)
    ensures i.Select? ==> forall f: Flag :: PatchGet(p, f).None?
    ensures i.Select? ==> p.enableProSmartFilesContextMode == Some(i.mode != Off)
    ensures i.Select? ==> p.proSmartContextOption == (if i.mode == Off then Some(None) else Some(Some(Name(i.mode))))
    ensures i.Select? ==> DeriveMode(Some(Merge(s, p))) == i.mode
    ensures i.Toggle? ==> PatchGet(p, i.flag) == Some(!Truthy(Get(s, i.flag)))
    ensures i.Toggle? ==> forall g: Flag :: g != i.flag ==> PatchGet(p, g).None?
    ensures i.Toggle? ==> p.enableProSmartFilesContextMode.None? && p.proSmartContextOption.None?
  {
    match i
    case Select(m) => SmartContextUpdate(m)
    case Toggle(f) => ToggleUpdate(s, f)
  }

  /** The snapshot after handling the actions in order. */
  function Run(s: Option<Settings>, actions: seq<Intent>): Option<Settings>
    decreases |actions|
  {
    if actions == [] then s
    else
      var before := Run(s, actions[..|actions| - 1]);
      Some(Merge(before, IntentUpdate(before, actions[|actions| - 1])))
  }

  /** The most recently selected mode, if any action was a selection. */
  function LastSelected(actions: seq<Intent>): Option<Mode>
    decreases |actions|
  {
    if actions == [] then None
    else match actions[|actions| - 1]
      case Select(m) => Some(m)
      case Toggle(_) => LastSelected(actions[..|actions| - 1])
  }

  /** How many of the actions click switch `f`. */
  function Clicks(actions: seq<Intent>, f: Flag): nat
    decreases |actions|
  {
    if actions == [] then 0
    else Clicks(actions[..|actions| - 1], f) + (if actions[|actions| - 1] == Toggle(f) then 1 else 0)
  }

  /** The derived mode after a session is the last mode selected in it; with
      no selection it is the mode derived from the starting snapshot. */
  lemma {:induction false} RunDerivesLastSelection(s: Option<Settings>, actions: seq<Intent>)
    ensures DeriveMode(Run(s, actions)) == LastSelected(actions).GetOr(DeriveMode(s))
    decreases |actions|
  {
    if actions != [] {
      var init := actions[..|actions| - 1];
      RunDerivesLastSelection(s, init);
      match actions[|actions| - 1]
      case Select(m) => SelectThenDerive(Run(s, init), m);
      case Toggle(f) => ToggleEffect(Run(s, init), f);
    }
  }

  /** A switch shows on after a session exactly when it showed on at the start
      and was clicked an even number of times, or showed off and was clicked an
      odd number of times; mode selections never move it. */
  lemma {:induction false} RunFlagParity(s: Option<Settings>, actions: seq<Intent>, f: Flag)
    ensures Truthy(Get(Run(s, actions), f)) == (Truthy(Get(s, f)) != (Clicks(actions, f) % 2 == 1))
    decreases |actions|
  {
    if actions != [] {
      var init := actions[..|actions| - 1];
      RunFlagParity(s, init, f);
      match actions[|actions| - 1]
      case Select(m) => SelectKeepsSwitches(Run(s, init), m, f);
      case Toggle(g) => ToggleEffect(Run(s, init), g);
    }
  }
}

# Pro mode selector: smart-context settings reconciliation

A Dafny model of the settings logic of the Dyad "Pro" selector
(`src/components/ProModeSelector.tsx`). The selector reads a possibly missing
snapshot of the user settings record and lets the user

- flip three switches (`enableDyadPro`, `enableProWebSearch`,
  `enableProLazyEditsMode`), each by sending the negation of the snapshot's
  value, with an absent value read as false;
- pick one of four smart-context modes (`off`, `conservative`, `balanced`,
  `v3`), which is stored as a gate flag `enableProSmartFilesContextMode` plus an
  option string `proSmartContextOption`, and is shown by deriving the mode back
  from those two fields.

Every change goes to the settings store as a partial update that the store
merges shallowly into the record.

Modules:

- `Wrappers` (`wrappers.dfy`): `Option`.
- `UserSettings` (`settings.dfy`): the settings record and the partial update
  (`Patch`). Every field of `Patch` is optional, and the option field is
  `Option<Option<string>>`, so "write absent" differs from "leave alone". It
  also holds the store's shallow `Merge` and its laws.
- `SmartContext` (`smart_context.dfy`): `DeriveMode` (`getCurrentValue`), which
  turns a snapshot into a mode. `SmartContextUpdate` (`handleSmartContextChange`)
  turns a mode into a patch. The lemmas cover the round trip, idempotence and
  framing.
- `Toggles` (`toggles.dfy`): the patch each switch sends, and what merging it
  does.
- `Display` (`display.dfy`): what a switch shows, and which smart-context
  button is highlighted.
- `Session` (`session.dfy`): a sequence of clicks, each handled against the
  snapshot left by the one before. The store applies merges one at a time, in
  the order they arrive.
- `Selector` (`selector.dfy`): the store as a class holding the snapshot, with
  `UpdateSettings`. The component is a class whose handlers read the snapshot
  and update the store.

The stored option is the raw string, not an enumeration. The source compares it
with `===` against three literals, so any other string is simply "not
recognised" and derives `balanced` while the gate is on.

## Model

| member | source | states |
|---|---|---|
| `UserSettings.Truthy` | src/components/ProModeSelector.tsx:183 | an optional flag is truthy exactly when it is present and true; absent reads as false |
| `UserSettings.Get` | src/components/ProModeSelector.tsx:21-119 | `settings?.<flag>` for the three switches: absent whenever there is no snapshot (optional chaining on null) |
| `UserSettings.Gate` | src/components/ProModeSelector.tsx:183 | `settings?.enableProSmartFilesContextMode`: truthy exactly when a snapshot exists and its gate is present and true |
| `UserSettings.StoredOption` | src/components/ProModeSelector.tsx:186-192 | `settings?.proSmartContextOption`: present exactly when a snapshot exists and holds an option, and then equal to it |
| `UserSettings.Merge` | src/components/ProModeSelector.tsx:19-24 | each field the patch names takes the patch's value; every other field keeps the snapshot's value (absent when there is no snapshot) |
| `UserSettings.MergeIdempotent` | src/components/ProModeSelector.tsx:19-24 | merging the same patch twice gives the same record as merging it once |
| `UserSettings.MergeUntouched` | src/components/ProModeSelector.tsx:19-24 | a patch that names no field leaves a present record unchanged |
| `SmartContext.DeriveMode` | src/components/ProModeSelector.tsx:182-198 | total; no snapshot, or a false or absent gate, gives off whatever option is stored; with the gate on, a stored `balanced`, `conservative` or `v3` gives that mode (never off); any other or no option gives balanced |
| `SmartContext.SmartContextUpdate` | src/components/ProModeSelector.tsx:33-57 | off writes gate false and clears the option; any other mode writes gate true and that mode's name; no switch is named |
| `SmartContext.SelectThenDerive` | src/components/ProModeSelector.tsx:33-57 | from any snapshot, including none, merging the update for a mode and deriving again gives that mode |
| `SmartContext.SelectIdempotent` | src/components/ProModeSelector.tsx:33-57 | merging the update for a mode twice gives the same settings as merging it once |
| `SmartContext.SelectKeepsSwitches` | src/components/ProModeSelector.tsx:36-55 | a mode selection leaves all three switches as they were |
| `SmartContext.OffAsymmetry` | src/components/ProModeSelector.tsx:36-40 | selecting off leaves gate false and no option stored; from a snapshot with its gate off and a stale option, that gives a different record that still derives the same off |
| `SmartContext.DeriveModeDependsOnSmartFieldsOnly` | src/components/ProModeSelector.tsx:182-198 | two snapshots that agree on the gate and the option derive the same mode |
| `Toggles.ToggleUpdate` | src/components/ProModeSelector.tsx:21-31 | a switch's patch writes its own flag as the negation of the snapshot's value, absent read as false, and names nothing else |
| `Toggles.ToggleEffect` | src/components/ProModeSelector.tsx:21-31 | after the merge the flag is the negation of the shown value; the other switches, the gate, the option and the derived mode are unchanged |
| `Toggles.ToggleTwice` | src/components/ProModeSelector.tsx:21-63 | toggling twice from fresh snapshots restores a present flag; an absent flag becomes an explicit false |
| `Toggles.StaleDoubleToggle` | src/components/ProModeSelector.tsx:21-25 | two clicks handled against one stale snapshot send the same patch, so the flag flips once, not twice |
| `Display.SettingEnabled` | src/components/ProModeSelector.tsx:101-119 | a switch row receives true exactly when its flag is present and true |
| `Display.SwitchChecked` | src/components/ProModeSelector.tsx:167 | a row that cannot be toggled is never checked; otherwise it shows the setting |
| `Display.SwitchShowsFlag` | src/components/ProModeSelector.tsx:95-121 | with every row togglable, a switch is checked exactly when its flag is present and true, so an absent flag shows off |
| `Display.ButtonVariant` | src/components/ProModeSelector.tsx:220-249 | a button is drawn highlighted exactly when it is the current mode |
| `Display.Highlighted` | src/components/ProModeSelector.tsx:218-255 | every button drawn with the highlighted variant is one of the buttons and equals the current mode |
| `Display.HighlightedDistinct` | src/components/ProModeSelector.tsx:218-255 | among distinct buttons, the highlighted ones are the current mode alone when it is present, and none otherwise |
| `Display.ExactlyOneHighlighted` | src/components/ProModeSelector.tsx:200-255 | for every snapshot exactly one of the four buttons is highlighted, the one for the derived mode |
| `Session.IntentUpdate` | src/components/ProModeSelector.tsx:95-255 | a click on a mode button sends an update that writes the gate as "mode is not off", clears the option for off and stores the mode's name otherwise, names no switch, and, merged into the snapshot, derives that mode; a click on a switch sends only that switch's negated flag and leaves the smart-context fields unnamed |
| `Session.RunDerivesLastSelection` | src/components/ProModeSelector.tsx:21-63 | after handling a sequence of clicks in order, the derived mode is the last selected mode, or the starting mode if none was selected |
| `Session.RunFlagParity` | src/components/ProModeSelector.tsx:21-63 | after a sequence of clicks a switch shows on exactly when its start value differs from the parity of its click count; mode selections never move it |
| `Selector.SettingsStore.UpdateSettings` | src/components/ProModeSelector.tsx:19 | the new snapshot is the old one merged with the patch |
| `Selector.ProModeSelector.Toggle` | src/components/ProModeSelector.tsx:21-31 | merges the switch's patch; the switch's shown value flips; other switches, gate, option and derived mode are unchanged |
| `Selector.ProModeSelector.ToggleProEnabled` | src/components/ProModeSelector.tsx:59-63 | `enableDyadPro` flips as shown; the other switches and the derived mode are unchanged |
| `Selector.ProModeSelector.ToggleWebSearch` | src/components/ProModeSelector.tsx:21-25 | `enableProWebSearch` flips as shown; the other switches and the derived mode are unchanged |
| `Selector.ProModeSelector.ToggleLazyEdits` | src/components/ProModeSelector.tsx:27-31 | `enableProLazyEditsMode` flips as shown; the other switches and the derived mode are unchanged |
| `Selector.ProModeSelector.HandleSmartContextChange` | src/components/ProModeSelector.tsx:33-57 | merges the mode's patch; afterwards the derived mode is the chosen one, the switches are unchanged, and the stored option is absent for off and the mode's name otherwise |

## Left out

- Rendering: the popover, tooltips, labels, class names and button styling (src/components/ProModeSelector.tsx:65-131, 151-169, 202-257) are presentation only. Of the rendering, only which switch is checked and which button is highlighted is modelled.
- The settings store behind `useSettings` is not part of this model: persistence, observer notification and asynchronous delivery. `Merge` is the shallow field-wise overwrite that the handlers rely on. Merging into a missing snapshot is assumed to start from a record with no field present. When there is no snapshot, the "other switches unchanged" facts of `Toggles.ToggleEffect`, `SmartContext.SelectKeepsSwitches` and `Selector.ProModeSelector.Toggle` rest on this assumption: every field the patch does not name comes out absent.
- Ordering between rapid clicks is a concurrency concern and is not modelled. `Session` assumes merges are applied one at a time, in order. `StaleDoubleToggle` covers only the case where two clicks are handled against the same snapshot.
- The other fields of the user settings record are not modelled. No handler names them, so a shallow merge leaves them as they were.
- The agreement with `getModelClient` in `get_model_client.ts` (src/components/ProModeSelector.tsx:195) is not modelled: `get_model_client.ts` is not part of this model.
- An unlisted mode passed to `handleSmartContextChange` is not modelled. The `if`/`else if` chain at src/components/ProModeSelector.tsx:36-56 simply does nothing in that case: the code has no error path for an unlisted mode, and the model has none either. Here `Mode` has exactly four values, so such a mode cannot occur.
- There is no gating of the other controls on `enableDyadPro`, in the code or in the model. While `enableDyadPro` is false the other controls are not disabled: every row gets `isTogglable` true (src/components/ProModeSelector.tsx:100, 109, 118, 123), and `enableDyadPro` is read only for display (src/components/ProModeSelector.tsx:101) and by its own toggle (src/components/ProModeSelector.tsx:61).
- `forge.config.ts` (packaging, code signing, makers, plugins and fuses) is build configuration with no logic to verify.

/** What the selector shows: the state of each switch and which smart-context
    button is highlighted. */
module Display {
  import opened Wrappers
  import opened UserSettings
  import opened SmartContext

  /** `Boolean(settings?.<flag>)`: the value handed to a switch row. */
  function SettingEnabled(s: Option<Settings>, f: Flag): (enabled: bool)
    ensures enabled <==> Get(s, f) == Some(true)
  {
    Truthy(Get(s, f))
  }

  /** The `checked` state of a switch row: a row that cannot be toggled always
      shows off; otherwise it shows the setting. */
  function SwitchChecked(isTogglable: bool, settingEnabled: bool): (checked: bool)
    ensures !isTogglable ==> !checked
    ensures isTogglable ==> checked == settingEnabled
  {
    if isTogglable then settingEnabled else false
  }

  /** The selector passes `isTogglable` for every row, so each switch shows its
      flag, an absent flag as off, and a click on the switch flips what it
      shows. */
  lemma SwitchShowsFlag(s: Option<Settings>, f: Flag)
    ensures SwitchChecked(true, SettingEnabled(s, f)) <==> Get(s, f) == Some(true)
    ensures Get(s, f).None? ==> !SwitchChecked(true, SettingEnabled(s, f))
  {
  }

  /** Button styles of the smart-context selector. */
  datatype Variant = Default | Ghost

  /** A smart-context button is drawn highlighted exactly when it is the
      current mode. */
  function ButtonVariant(current: Mode, button: Mode): (v: Variant)
    ensures v == Default <==> button == current
  {
    if current == button then Default else Ghost
  }

  /** The four buttons, in the order they are drawn. */
  const Buttons: seq<Mode> := [Off, Conservative, Balanced, V3]

  /** The buttons, in order, that are drawn highlighted. */
  function Highlighted(current: Mode, buttons: seq<Mode>): (h: seq<Mode>)
    ensures forall i :: 0 <= i < |h| ==> h[i] in buttons && ButtonVariant(current, h[i]) == Default
  {
    if buttons == [] then []
    else
      var rest := Highlighted(current, buttons[1..]);
      if ButtonVariant(current, buttons[0]) == Default then [buttons[0]] + rest else rest
  }

  /** Among buttons with no repetition, the current mode is highlighted if
      present, and nothing else is. */
  lemma {:induction false} HighlightedDistinct(current: Mode, buttons: seq<Mode>)
    requires forall i, j :: 0 <= i < j < |buttons| ==> buttons[i] != buttons[j]
    ensures Highlighted(current, buttons) == if current in buttons then [current] else []
  {
    if buttons != [] {
      HighlightedDistinct(current, buttons[1..]);
      assert current in buttons <==> current == buttons[0] || current in buttons[1..];
      if current == buttons[0] {
        assert current !in buttons[1..] by {
          forall k | 0 <= k < |buttons[1..]| ensures buttons[1..][k] != current {
            assert buttons[1..][k] == buttons[k + 1];
          }
        }
      }
    }
  }

  /** For every snapshot exactly one smart-context button is highlighted: the
      one for the derived mode. */
  lemma ExactlyOneHighlighted(s: Option<Settings>)
    ensures Highlighted(DeriveMode(s), Buttons) == [DeriveMode(s)]
  {
  }
}

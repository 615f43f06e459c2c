/** The settings store and the Pro mode selector component: each handler
    reads the current snapshot, builds a partial update and hands it to the
    store's merge. */
module Selector {
  import opened Wrappers
  import opened UserSettings
  import opened SmartContext
  import opened Toggles
  import opened Display

  /** The store behind `useSettings`: the current snapshot (none before the
      first load) and `updateSettings`, a shallow merge. */
  class SettingsStore {
    var settings: Option<Settings>

    constructor (initial: Option<Settings>)
      ensures settings == initial
    {
      settings := initial;
    }

    /** `updateSettings(partial)`. */
    method UpdateSettings(p: Patch)
      modifies this
      ensures settings == Some(Merge(old(settings), p))
    {
      settings := Some(Merge(settings, p));
    }
  }

  /** The component, bound to the store it reads and updates. */
  class ProModeSelector {
    const store: SettingsStore

    constructor (store: SettingsStore)
      ensures this.store == store
    {
      this.store := store;
    }

    /** Flip switch `f` from the current snapshot; nothing else changes. */
    method Toggle(f: Flag)
      modifies store
      ensures store.settings == Some(Merge(old(store.settings), ToggleUpdate(old(store.settings), f)))
      ensures SettingEnabled(store.settings, f) == !old(SettingEnabled(store.settings, f))
      ensures forall g: Flag :: g != f ==> Get(store.settings, g) == old(Get(store.settings, g))
      ensures Gate(store.settings) == old(Gate(store.settings))
      ensures StoredOption(store.settings) == old(StoredOption(store.settings))
      ensures DeriveMode(store.settings) == old(DeriveMode(store.settings))
    {
      ToggleEffect(store.settings, f);
      store.UpdateSettings(ToggleUpdate(store.settings, f));
    }

    /** `toggleProEnabled`. */
    method ToggleProEnabled()
      modifies store
      ensures store.settings == Some(Merge(old(store.settings), ToggleUpdate(old(store.settings), DyadPro)))
      ensures SettingEnabled(store.settings, DyadPro) == !old(SettingEnabled(store.settings, DyadPro))
      ensures Get(store.settings, WebSearch) == old(Get(store.settings, WebSearch))
      ensures Get(store.settings, LazyEdits) == old(Get(store.settings, LazyEdits))
      ensures DeriveMode(store.settings) == old(DeriveMode(store.settings))
    {
      Toggle(DyadPro);
    }

    /** `toggleWebSearch`. */
    method ToggleWebSearch()
      modifies store
      ensures store.settings == Some(Merge(old(store.settings), ToggleUpdate(old(store.settings), WebSearch)))
      ensures SettingEnabled(store.settings, WebSearch) == !old(SettingEnabled(store.settings, WebSearch))
      ensures Get(store.settings, DyadPro) == old(Get(store.settings, DyadPro))
      ensures Get(store.settings, LazyEdits) == old(Get(store.settings, LazyEdits))
      ensures DeriveMode(store.settings) == old(DeriveMode(store.settings))
    {
      Toggle(WebSearch);
    }

    /** `toggleLazyEdits`. */
    method ToggleLazyEdits()
      modifies store
      ensures store.settings == Some(Merge(old(store.settings), ToggleUpdate(old(store.settings), LazyEdits)))
      ensures SettingEnabled(store.settings, LazyEdits) == !old(SettingEnabled(store.settings, LazyEdits))
      ensures Get(store.settings, DyadPro) == old(Get(store.settings, DyadPro))
      ensures Get(store.settings, WebSearch) == old(Get(store.settings, WebSearch))
      ensures DeriveMode(store.settings) == old(DeriveMode(store.settings))
    {
      Toggle(LazyEdits);
    }

    /** `handleSmartContextChange`: afterwards the selector shows the chosen
      mode, the switches are untouched, and after `Off` no option is stored. */
    method HandleSmartContextChange(m: Mode)
      modifies store
      ensures store.settings == Some(Merge(old(store.settings), SmartContextUpdate(m)))
      ensures DeriveMode(store.settings) == m
      ensures forall f: Flag :: Get(store.settings, f) == old(Get(store.settings, f))
      ensures m == Off ==> StoredOption(store.settings) == None
      ensures m != Off ==> StoredOption(store.settings) == Some(Name(m))
    {
      SelectThenDerive(store.settings, m);
      store.UpdateSettings(SmartContextUpdate(m));
    }
  }
}

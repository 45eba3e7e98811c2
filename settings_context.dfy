/** The settings provider: one preferences field, initialised from the store,
    replaced by `updateSettings` and `resetSettings`, and written back to the
    store after every change by the provider's effect. */
module Settings {
  import opened Types
  import opened Storage

  /** What the store holds once the current settings have been written. */
  predicate Synced(items: Items, settings: UserPreferences) {
    GetUserPreferences(items) == settings
  }

  /** Writing the whole settings makes the store read them back, whatever it
      held before. */
  lemma SavingWholeSyncs(items: Items, settings: UserPreferences)
    ensures Synced(WithPreferencesSaved(items, Whole(settings)), settings)
  {
    ReadAfterSavePreferences(items, Whole(settings));
    MergeUnits(GetUserPreferences(items), settings);
  }

  class SettingsProvider {
    var settings: UserPreferences
    const storage: LocalStorage

    /** The effect: `saveUserPreferences(settings)`. */
    method Persist()
      modifies storage
      ensures settings == old(settings)
      ensures storage.quotaExceeded == old(storage.quotaExceeded)
      ensures storage.items == if storage.quotaExceeded then old(storage.items)
                               else WithPreferencesSaved(old(storage.items), Whole(settings))
      ensures !storage.quotaExceeded ==> Synced(storage.items, settings)
    {
      SavingWholeSyncs(storage.items, settings);
      storage.SaveUserPreferences(Whole(settings));
    }

    /** Mounting: the lazy initial state reads the store, then the effect
        writes it back. */
    constructor (storage: LocalStorage)
      modifies storage
      ensures this.storage == storage
      ensures settings == GetUserPreferences(old(storage.items))
      ensures storage.quotaExceeded == old(storage.quotaExceeded)
      ensures storage.items == if storage.quotaExceeded then old(storage.items)
                               else WithPreferencesSaved(old(storage.items), Whole(settings))
      ensures !storage.quotaExceeded ==> Synced(storage.items, settings)
    {
      this.storage := storage;
      settings := GetUserPreferences(storage.items);
      new;
      Persist();
    }

    /** `updateSettings(p)`: the fields of `p` replace the current ones;
        the new object always triggers the effect. */
    method UpdateSettings(p: PartialPreferences)
      modifies this, storage
      ensures settings == Merge(old(settings), p)
      ensures storage.quotaExceeded == old(storage.quotaExceeded)
      ensures storage.items == if storage.quotaExceeded then old(storage.items)
                               else WithPreferencesSaved(old(storage.items), Whole(settings))
      ensures !storage.quotaExceeded ==> Synced(storage.items, settings)
    {
      settings := Merge(settings, p);
      Persist();
    }

    /** `resetSettings()`: back to the defaults, then the effect. */
    method ResetSettings()
      modifies this, storage
      ensures settings == DefaultPreferences
      ensures storage.quotaExceeded == old(storage.quotaExceeded)
      ensures storage.items == if storage.quotaExceeded then old(storage.items)
                               else WithPreferencesSaved(old(storage.items), Whole(settings))
      ensures !storage.quotaExceeded ==> Synced(storage.items, settings)
    {
      settings := DefaultPreferences;
      Persist();
    }
  }
}

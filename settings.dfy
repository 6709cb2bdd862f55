/** The flat settings record of src/settings.ts, its defaults, and how stored data is merged over them. */
module Settings {
  import opened Wrappers

  datatype PageFlipSoundsSettings = PageFlipSoundsSettings(
    enabled: bool,
    volume: real,
    onOpenNote: bool,
    onCreateNote: bool,
    onSwitchTab: bool,
    onInternalLink: bool,
    onDailyNote: bool,
    onCheckbox: bool,
    customSoundsFolder: string)

  /** `DEFAULT_SETTINGS`. */
  const DefaultSettings: PageFlipSoundsSettings :=
    PageFlipSoundsSettings(true, 0.5, true, true, true, true, true, true, "")

  /** Every sound is on, at half volume, with no custom folder. */
  lemma DefaultsEnableEverything()
    ensures var d := DefaultSettings;
      d.enabled && d.onOpenNote && d.onCreateNote && d.onSwitchTab && d.onInternalLink &&
      d.onDailyNote && d.onCheckbox && d.volume == 0.5 && d.customSoundsFolder == ""
  {
  }

  /** What `loadData` returns when data was saved: a `Partial` record, each field present or absent. */
  datatype StoredSettings = StoredSettings(
    enabled: Option<bool>,
    volume: Option<real>,
    onOpenNote: Option<bool>,
    onCreateNote: Option<bool>,
    onSwitchTab: Option<bool>,
    onInternalLink: Option<bool>,
    onDailyNote: Option<bool>,
    onCheckbox: Option<bool>,
    customSoundsFolder: Option<string>)

  /**
   * `Object.assign({}, DEFAULT_SETTINGS, await this.loadData())`: every field
   * stored takes the stored value, every field absent keeps its default, and
   * nothing stored (`loadData` gives null) gives the defaults.
   */
  function MergeSettings(data: Option<StoredSettings>): (s: PageFlipSoundsSettings)
    ensures data.None? ==> s == DefaultSettings
    ensures data.Some? ==> var d := data.value;
      (d.enabled.Some? ==> s.enabled == d.enabled.value) &&
      (d.enabled.None? ==> s.enabled == DefaultSettings.enabled) &&
      (d.volume.Some? ==> s.volume == d.volume.value) &&
      (d.volume.None? ==> s.volume == DefaultSettings.volume) &&
      (d.onOpenNote.Some? ==> s.onOpenNote == d.onOpenNote.value) &&
      (d.onOpenNote.None? ==> s.onOpenNote == DefaultSettings.onOpenNote) &&
      (d.onCreateNote.Some? ==> s.onCreateNote == d.onCreateNote.value) &&
      (d.onCreateNote.None? ==> s.onCreateNote == DefaultSettings.onCreateNote) &&
      (d.onSwitchTab.Some? ==> s.onSwitchTab == d.onSwitchTab.value) &&
      (d.onSwitchTab.None? ==> s.onSwitchTab == DefaultSettings.onSwitchTab) &&
      (d.onInternalLink.Some? ==> s.onInternalLink == d.onInternalLink.value) &&
      (d.onInternalLink.None? ==> s.onInternalLink == DefaultSettings.onInternalLink) &&
      (d.onDailyNote.Some? ==> s.onDailyNote == d.onDailyNote.value) &&
      (d.onDailyNote.None? ==> s.onDailyNote == DefaultSettings.onDailyNote) &&
      (d.onCheckbox.Some? ==> s.onCheckbox == d.onCheckbox.value) &&
      (d.onCheckbox.None? ==> s.onCheckbox == DefaultSettings.onCheckbox) &&
      (d.customSoundsFolder.Some? ==> s.customSoundsFolder == d.customSoundsFolder.value) &&
      (d.customSoundsFolder.None? ==> s.customSoundsFolder == DefaultSettings.customSoundsFolder)
  {
    match data
    case None => DefaultSettings
    case Some(d) =>
      var def := DefaultSettings;
      PageFlipSoundsSettings(
        d.enabled.GetOr(def.enabled),
        d.volume.GetOr(def.volume),
        d.onOpenNote.GetOr(def.onOpenNote),
        d.onCreateNote.GetOr(def.onCreateNote),
        d.onSwitchTab.GetOr(def.onSwitchTab),
        d.onInternalLink.GetOr(def.onInternalLink),
        d.onDailyNote.GetOr(def.onDailyNote),
        d.onCheckbox.GetOr(def.onCheckbox),
        d.customSoundsFolder.GetOr(def.customSoundsFolder))
  }

  /** What `saveData(this.settings)` stores: every field present. */
  function Persisted(s: PageFlipSoundsSettings): StoredSettings {
    StoredSettings(Some(s.enabled), Some(s.volume), Some(s.onOpenNote), Some(s.onCreateNote),
                   Some(s.onSwitchTab), Some(s.onInternalLink), Some(s.onDailyNote),
                   Some(s.onCheckbox), Some(s.customSoundsFolder))
  }

  /** Saving then loading gives back the same settings. */
  lemma SaveLoadRoundTrip(s: PageFlipSoundsSettings)
    ensures MergeSettings(Some(Persisted(s))) == s
  {
  }

  /** Stored data with no fields loads as the defaults, just as no data does. */
  lemma EmptyStoredDataGivesDefaults()
    ensures MergeSettings(Some(StoredSettings(None, None, None, None, None, None, None, None, None))) == DefaultSettings
  {
  }
}

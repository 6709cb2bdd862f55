/**
 * The settings tab of src/settings.ts, without its rendering: the `onChange`
 * handler of every control, which writes one field of the plugin's settings,
 * the custom-folder handler, which also reloads or clears the custom sounds,
 * and the three preview buttons.
 */
module SettingTab {
  import opened Wrappers
  import opened JsStrings
  import opened Settings
  import Audio
  import Plugin

  class PageFlipSoundsSettingTab {
    const plugin: Plugin.PageFlipSoundsPlugin

    constructor (plugin: Plugin.PageFlipSoundsPlugin)
      ensures this.plugin == plugin
    {
      this.plugin := plugin;
    }

    /** "Enable sounds". */
    method OnEnabledChange(value: bool)
      modifies plugin`settings
      ensures plugin.settings == old(plugin.settings).(enabled := value)
    {
      plugin.settings := plugin.settings.(enabled := value);
    }

    /** "Volume". */
    method OnVolumeChange(value: real)
      modifies plugin`settings
      ensures plugin.settings == old(plugin.settings).(volume := value)
    {
      plugin.settings := plugin.settings.(volume := value);
    }

    /** "Open note". */
    method OnOpenNoteChange(value: bool)
      modifies plugin`settings
      ensures plugin.settings == old(plugin.settings).(onOpenNote := value)
    {
      plugin.settings := plugin.settings.(onOpenNote := value);
    }

    /** "Create note". */
    method OnCreateNoteChange(value: bool)
      modifies plugin`settings
      ensures plugin.settings == old(plugin.settings).(onCreateNote := value)
    {
      plugin.settings := plugin.settings.(onCreateNote := value);
    }

    /** "Switch tabs". */
    method OnSwitchTabChange(value: bool)
      modifies plugin`settings
      ensures plugin.settings == old(plugin.settings).(onSwitchTab := value)
    {
      plugin.settings := plugin.settings.(onSwitchTab := value);
    }

    /** "Internal links". */
    method OnInternalLinkChange(value: bool)
      modifies plugin`settings
      ensures plugin.settings == old(plugin.settings).(onInternalLink := value)
    {
      plugin.settings := plugin.settings.(onInternalLink := value);
    }

    /** "Daily notes". */
    method OnDailyNoteChange(value: bool)
      modifies plugin`settings
      ensures plugin.settings == old(plugin.settings).(onDailyNote := value)
    {
      plugin.settings := plugin.settings.(onDailyNote := value);
    }

    /** "Checkbox toggle". */
    method OnCheckboxChange(value: bool)
      modifies plugin`settings
      ensures plugin.settings == old(plugin.settings).(onCheckbox := value)
    {
      plugin.settings := plugin.settings.(onCheckbox := value);
    }

    /**
     * "Custom sounds folder": the trimmed text is stored; a non-empty one is
     * loaded, an empty one clears the custom set and its path.
     */
    method OnCustomFolderChange(value: string, vault: Audio.Vault)
      returns (warnings: seq<string>, notice: Option<string>, readLog: seq<string>)
      requires plugin.sounds.Valid()
      modifies plugin`settings, plugin.sounds
      ensures plugin.sounds.Valid()
      ensures plugin.settings == old(plugin.settings).(customSoundsFolder := Trim(value))
      ensures Trim(value) != "" ==>
        var out := Audio.LoadCustomSoundsSpec(old(plugin.sounds.State()), vault, Trim(value));
        plugin.sounds.State() == out.state && warnings == out.warnings && readLog == out.readLog &&
        notice == (if |warnings| > 0 then Some(Audio.NoticeText(warnings)) else None)
      ensures Trim(value) == "" ==>
        plugin.sounds.State() == Audio.CustomState(None, None) && warnings == [] && notice.None? && readLog == []
    {
      plugin.settings := plugin.settings.(customSoundsFolder := Trim(value));
      warnings, notice, readLog := [], None, [];
      if Trim(value) != "" {
        warnings, notice, readLog := plugin.sounds.LoadCustomSounds(vault, Trim(value));
      } else {
        plugin.sounds.ClearCustomSounds();
      }
    }

    /** The three "Test" buttons: play their pool at the current volume. */
    function Preview(pool: Audio.SoundPool, rnd: real): (p: Option<Audio.Playback>)
      reads plugin, plugin.sounds
      requires plugin.sounds.Valid() && 0.0 <= rnd < 1.0
      ensures p.Some? <==> plugin.sounds.GetSoundUrl(pool, rnd).Some?
      ensures p.Some? ==> p.value.url == plugin.sounds.GetSoundUrl(pool, rnd).value
      ensures p.Some? ==> p.value.volume == Audio.Clamp01(plugin.settings.volume)
    {
      plugin.sounds.PlaySound(pool, plugin.settings.volume, rnd)
    }

    /** The checkbox preview plays exactly what the new-note preview plays. */
    lemma CheckboxPreviewIsNewNote(rnd: real)
      requires plugin.sounds.Valid() && 0.0 <= rnd < 1.0
      ensures Preview(Audio.Checkbox, rnd) == Preview(Audio.NewNote, rnd)
    {
      Audio.CheckboxResolvesAsNewNote(plugin.sounds, rnd);
    }
  }
}

# Page Flip Sounds — a Dafny model of its decision logic

This project models the decision logic of the Obsidian plugin "Page Flip Sounds". The plugin plays a short sound when the user navigates the workspace. The model covers three parts:

- **The navigation classifier** (`src/main.ts`). On every `active-leaf-change` it decides whether one sound is requested, and which. It uses the last leaf and file it saw, the set of recently created files, and two short-lived cause flags: internal-link navigation and daily-note navigation. The create handler, the link-click handler and the wrapper around `executeCommandById` raise those causes. The `setTimeout` expiries are explicit events.
- **The sound store and the custom-sound loader** (`src/audio.ts`). The store picks a random sound from the custom pool when that pool is usable, and from the built-in pool otherwise. The loader reads `<folder>/page-flip` and `<folder>/new-note` from the vault. It keeps the `.ogg` files, sorts them by name, encodes each one as an `audio/ogg` base64 data URL, and collects warnings. The result is installed in the module variables `customSounds` and `customSoundsPath`.
- **The settings** (`src/settings.ts`). This covers the flat settings record, its defaults and the field-by-field merge on load. It also covers the `onChange` handler of each control, the custom-folder handler (trim, store, then load or clear) and the preview buttons.

Modules:

- `wrappers.dfy` (`Wrappers`): `Option`, for `null` and `undefined`.
- `js_strings.dfy` (`JsStrings`): `trim`, `includes`, `endsWith`, and the order used to sort file names.
- `base64.dfy` (`Base64`): `btoa`, as the encoding of section 4 of RFC 4648, with a decoder and a round-trip proof. Also the one-character-per-byte "binary string".
- `audio.dfy` (`Audio`): pools, `pickRandom`, data URLs, and the loader as functions. The class `SoundStore` holds the two module variables and has `GetSoundUrl`, `PlaySound`, `LoadCustomSounds` and `ClearCustomSounds`.
- `settings.dfy` (`Settings`): `PageFlipSoundsSettings`, `DefaultSettings`, and the merge performed by `loadSettings`.
- `plugin.dfy` (`Plugin`): each event as a transition function on `NavState`, with the properties of the cascade as contracts. The class `PageFlipSoundsPlugin` has one method per event, and each method is proved to make its function's transition.
- `setting_tab.dfy` (`SettingTab`): the class `PageFlipSoundsSettingTab` with the handlers of the settings controls.

## Behaviour worth noting

- A sound is picked uniformly at random from its pool, through `Math.random`.
- Only the `page-flip` and `new-note` sub-folders of the custom folder are loaded.
- A request for `"checkbox"` resolves through the new-note pools, custom and built-in.
- `onunload` forgets the leaf, the file and the created set. It leaves both cause flags as they are.
- When no custom pool is usable (the set is null or the requested pool is empty), `getSoundUrl` gives no URL if the built-in pool is empty or the drawn built-in entry is the empty string.
- No code detects checkbox toggles. The settings control shows the `onCheckbox` setting, but no sound decision reads it.
- The timers are never cancelled. A stale timer lowers a flag that a later event raised.

## Model

| member | source | states |
|---|---|---|
| `Plugin.LeafChange` | src/main.ts:37-92 | An event that is disabled or has no leaf changes nothing and requests nothing. Every other event records the leaf and the file. An unchanged leaf and file, or a file resolving on the same leaf after a null file, is silent and leaves the flags and the created set alone. Otherwise the first cause that applies decides. A created path is removed and plays new-note iff `onCreateNote`, with both flags untouched. Next comes the daily-note flag, then the link flag. Only the first raised flag is reset, page-flip plays iff its own toggle is on, and the other flag is untouched. With no cause, page-flip plays iff (new leaf and `onSwitchTab`) or (new file and `onOpenNote`). An event never raises a flag or adds a path, and never requests the checkbox pool. |
| `Plugin.PageFlipSoundsPlugin.OnActiveLeafChange` | src/main.ts:37-92 | The handler's new fields are those of `LeafChange` from the old fields and current settings. It returns at most one request: that pool at the settings' volume. |
| `Plugin.PageFlipSoundsPlugin.PlayCause` | src/main.ts:59-91 | The cascade part of the handler consumes and plays exactly as the priority cascade inside `LeafChange` says. It starts from the state in which the leaf and the file are already recorded. |
| `Plugin.FileCreated` | src/main.ts:24-31 | A create event puts the path in the created set iff the file is a `TFile` with extension `md`. No other path and no other field changes. |
| `Plugin.PageFlipSoundsPlugin.OnCreate` | src/main.ts:24-31 | The create handler makes exactly the `FileCreated` transition. |
| `Plugin.CreatedExpired` | src/main.ts:28-30 | The create timer removes that path. No other path and no other field changes. |
| `Plugin.PageFlipSoundsPlugin.OnCreateTimer` | src/main.ts:28-30 | The create timer makes exactly the `CreatedExpired` transition. |
| `Plugin.LinkClicked` | src/main.ts:96-108 | The link flag is raised iff the plugin is enabled and the click lies in an internal link. Nothing else changes. |
| `Plugin.PageFlipSoundsPlugin.OnClick` | src/main.ts:96-108 | The click handler makes exactly the `LinkClicked` transition. |
| `Plugin.LinkFlagExpired` | src/main.ts:104-106 | The 200 ms timer lowers the link flag, whoever raised it. Nothing else changes. |
| `Plugin.PageFlipSoundsPlugin.OnClickTimer` | src/main.ts:104-106 | The link timer makes exactly the `LinkFlagExpired` transition. |
| `Plugin.DailyNoteCommandMatch` | src/main.ts:118-131 | A command id matches the listed daily-note ids (`includes` on any of them) iff it contains `daily-notes`. |
| `Plugin.CommandExecuted` | src/main.ts:130-136 | The daily-note flag is raised iff the plugin is enabled and the id contains a listed id. Nothing else changes. |
| `Plugin.PageFlipSoundsPlugin.ExecuteCommandById` | src/main.ts:130-138 | The wrapper makes exactly the `CommandExecuted` transition. It always forwards the same id to the original dispatcher. |
| `Plugin.DailyFlagExpired` | src/main.ts:133-135 | The 100 ms timer lowers the daily-note flag. Nothing else changes. |
| `Plugin.PageFlipSoundsPlugin.OnCommandTimer` | src/main.ts:133-135 | The command timer makes exactly the `DailyFlagExpired` transition. |
| `Plugin.Unloaded` | src/main.ts:146-150 | `onunload` forgets the leaf, the file and the created set. It keeps both flags. |
| `Plugin.PageFlipSoundsPlugin.OnUnload` | src/main.ts:146-150 | The unload method makes exactly the `Unloaded` transition. |
| `Plugin.PageFlipSoundsPlugin.constructor` | src/main.ts:8-12 | The fields start with no leaf, no file, an empty created set and both flags down. |
| `Plugin.PageFlipSoundsPlugin.LoadSettings` | src/main.ts:152-154 | The settings become the stored data merged over the defaults. |
| `Plugin.PageFlipSoundsPlugin.Onload` | src/main.ts:13-18 | Settings are loaded first. A custom sound load runs with the loaded folder iff that folder is non-empty. It gives that load's state, warnings and reads, and a notice iff there are warnings. Otherwise the custom state is unchanged and there is no notice. |
| `Plugin.CreateThenOpen` | src/main.ts:59-66 | A markdown note created and then shown in a new leaf gives new-note (if on) and never page-flip. The path leaves the created set. |
| `Plugin.LinkClickThenNavigate` | src/main.ts:77-84 | An internal-link click followed by another file on the same leaf gives one page-flip (if on). The link flag is down right after. |
| `Plugin.DelayedResolveSoundsOnce` | src/main.ts:49-57 | A new leaf with no file, then the same leaf with its resolved file: the second event is silent and consumes no cause. |
| `Plugin.StaleLinkTimerClearsNewFlag` | src/main.ts:101-106 | Timers are never cancelled. A stale link timer lowers the flag of a later click, so the navigation that click starts is classified as a plain file change: it plays page-flip iff `onOpenNote`, whatever `onInternalLink` says. |
| `Audio.Base64ToDataUrl` | src/audio.ts:14-16 | The URL is `data:audio/ogg;base64,` followed by exactly the given base64 text. |
| `Audio.DataUrlRoundTrip` | src/audio.ts:14-16 | Every such data URL is rebuilt from its payload, so the prefixing is invertible. |
| `Audio.RandomIndex` | src/audio.ts:20 | `floor(rnd * n)`, for a draw `0 <= rnd < 1`, is a valid index below `n`. |
| `Audio.PickRandom` | src/audio.ts:18-21 | The result is undefined exactly when the array is empty. Otherwise it is one of the array's elements. |
| `Audio.PickRandomReachesEvery` | src/audio.ts:18-21 | Every element of a non-empty array is returned for some draw. |
| `Audio.OggChildren` | src/audio.ts:47-48 | The filter keeps exactly the children whose name ends in `.ogg`, each with its multiplicity. |
| `Audio.InsertByName` | src/audio.ts:49 | Insertion into a name-sorted list keeps it sorted and adds exactly the one element. |
| `Audio.SortByName` | src/audio.ts:49 | The sort returns a permutation of its input, in ascending name order. |
| `Audio.FilesOnly` | src/audio.ts:52 | The `'extension' in file` test keeps exactly the files, not the folders, and keeps the name order. |
| `Audio.ReadFiles` | src/audio.ts:51-57 | The read loop produces only data URLs, and at most one per file read. |
| `Audio.ReadFilesAllReadable` | src/audio.ts:51-57 | When no read throws, there is one URL per file, in order, built from that file's bytes. |
| `Audio.ReadFilesSplit` | src/audio.ts:44-63 | A read that throws keeps the URLs pushed before it: reading is reading a prefix that did not fail, then the rest. |
| `Audio.ReadAll` | src/audio.ts:51-57 | The `for` loop computes exactly `ReadFiles`. |
| `Audio.ArrayBufferToBase64` | src/audio.ts:94-101 | The byte loop builds a string with one character per byte, whose code is that byte. That string is then base64-encoded. |
| `Audio.LoadCategorySpec` | src/audio.ts:44-63 | A missing sub-folder gives an empty pool and one warning naming its path. Otherwise the pool is what the read loop produced, with one warning iff a read threw. |
| `Audio.LoadCategory` | src/audio.ts:44-63 | One `try` block computes exactly `LoadCategorySpec`. |
| `Audio.CategoryPoolOnePerOggFile` | src/audio.ts:45-57 | With the folder present and all reads succeeding, the pool holds one URL per file child named `*.ogg`, in ascending name order, with no warning. |
| `Audio.LoadCustomSoundsSpec` | src/audio.ts:23-92 | An empty path leaves both variables null. The same path with a non-null set is a no-op that reads nothing. Any other path loads both categories independently and installs both pools with `customSoundsPath = folderPath`, whatever warnings arose. |
| `Audio.MissingPageFlipFolder` | src/audio.ts:44-91 | If `page-flip` is missing and `new-note` reads cleanly, the page-flip pool is empty and the new-note pool has one URL per file. There is exactly one warning, and it names the missing path. |
| `Audio.SoundStore.LoadCustomSounds` | src/audio.ts:23-92 | The store's new state, warnings and reads are those of `LoadCustomSoundsSpec`. A notice is raised iff there are warnings. The store invariant is kept. |
| `Audio.SoundStore.ClearCustomSounds` | src/audio.ts:103-106 | Both variables become null. |
| `Audio.SoundStore.constructor` | src/audio.ts:11-12 | The module starts with no custom sounds and no path. |
| `Audio.SoundStore.GetSoundUrl` | src/audio.ts:108-122 | With a custom set whose pool is non-empty, the result is one of that pool's URLs. Otherwise the result is a data URL around a built-in entry. There is no URL iff the built-in pool is empty or the drawn entry is empty. Every URL is an `audio/ogg` data URL. |
| `Audio.CheckboxResolvesAsNewNote` | src/audio.ts:115-121 | A request for `"checkbox"` resolves exactly like one for `"new-note"`. |
| `Audio.SoundStore.PlaySound` | src/audio.ts:124-133 | A playback happens iff a URL resolves. It plays that URL at the volume clamped to [0, 1]. |
| `Audio.Clamp01` | src/audio.ts:129 | The clamped volume lies in [0, 1]. It equals the input inside that range and the nearest bound outside it. |
| `Base64.Btoa` | src/audio.ts:100 | `btoa` produces `4 * ceil(n / 3)` characters, all from the RFC 4648 alphabet or `=`. |
| `Base64.BtoaRoundTrip` | src/audio.ts:100 | Decoding the output of `btoa` gives back its input, so the encoding loses nothing. |
| `Base64.BinaryString` | src/audio.ts:97-99 | The binary string has one character per byte, whose code is that byte. |
| `Settings.DefaultsEnableEverything` | src/settings.ts:17-27 | The defaults have `enabled` and all six triggers on, volume 0.5 and no custom folder. |
| `Settings.MergeSettings` | src/main.ts:153 | Every stored field overrides its default. Every absent field keeps its default. No data at all gives the defaults. |
| `Settings.SaveLoadRoundTrip` | src/main.ts:152-158 | Loading what was saved gives back the same settings. |
| `Settings.EmptyStoredDataGivesDefaults` | src/main.ts:153 | Stored data with no fields loads as the defaults. |
| `SettingTab.PageFlipSoundsSettingTab.OnEnabledChange` | src/settings.ts:46-49 | Only `enabled` takes the new value. Every other field is unchanged. |
| `SettingTab.PageFlipSoundsSettingTab.OnVolumeChange` | src/settings.ts:58-61 | Only `volume` takes the new value. |
| `SettingTab.PageFlipSoundsSettingTab.OnOpenNoteChange` | src/settings.ts:70-73 | Only `onOpenNote` takes the new value. |
| `SettingTab.PageFlipSoundsSettingTab.OnCreateNoteChange` | src/settings.ts:80-83 | Only `onCreateNote` takes the new value. |
| `SettingTab.PageFlipSoundsSettingTab.OnSwitchTabChange` | src/settings.ts:90-93 | Only `onSwitchTab` takes the new value. |
| `SettingTab.PageFlipSoundsSettingTab.OnInternalLinkChange` | src/settings.ts:100-103 | Only `onInternalLink` takes the new value. |
| `SettingTab.PageFlipSoundsSettingTab.OnDailyNoteChange` | src/settings.ts:110-113 | Only `onDailyNote` takes the new value. |
| `SettingTab.PageFlipSoundsSettingTab.OnCheckboxChange` | src/settings.ts:120-123 | Only `onCheckbox` takes the new value. |
| `SettingTab.PageFlipSoundsSettingTab.OnCustomFolderChange` | src/settings.ts:133-141 | The trimmed value is stored. If it is non-empty, the custom sounds are loaded from it, with the load's warnings and a notice iff there are warnings. Otherwise both audio variables become null. |
| `SettingTab.PageFlipSoundsSettingTab.Preview` | src/settings.ts:150-170 | A preview button plays its pool's resolved URL at the current volume, clamped. It plays nothing when no URL resolves. |
| `SettingTab.PageFlipSoundsSettingTab.CheckboxPreviewIsNewNote` | src/settings.ts:163-170 | The checkbox preview plays exactly what the new-note preview plays. |
| `JsStrings.SkipLeading` | src/settings.ts:134 | The index returned is the first one, from the given start, that holds a character `trim` keeps, or the end of the string. Everything skipped is whitespace. |
| `JsStrings.SkipTrailing` | src/settings.ts:134 | The index returned is just past the last kept character before the given end, or the given lower bound. Everything skipped is whitespace. |
| `JsStrings.Trim` | src/settings.ts:134 | The result is the slice between the leading and trailing whitespace. It has whitespace at neither end. It is empty iff the input is all whitespace. |
| `JsStrings.IncludesPrefix` | src/main.ts:131 | A string that includes `t` also includes every prefix of `t`. |
| `JsStrings.LexLeTotal` | src/audio.ts:49 | Any two names are ordered one way or the other by the sort order. |
| `JsStrings.LexLeTrans` | src/audio.ts:49 | The sort order is transitive. |

## Left out

- Audio playback (`new Audio`, `audio.play().catch`, src/audio.ts:128-132) is a browser API. `PlaySound` returns the playback it would start, as a URL and a volume.
- Volume is a `real`. Floating-point rounding and NaN are not modelled, in the clamp or in `Math.floor(Math.random() * length)`. A draw of `Math.random` is a parameter `rnd` with `0 <= rnd < 1`.
- The vault is a map from folder path to that folder's children. `getFolderByPath` is an exact key lookup, without Obsidian's path normalisation. `readBinary` is each file's bytes or the error it throws, and the error's text stands for `${e}`. Only `readBinary` is modelled as throwing. A read log records which files were read.
- `new Notice(...)` is the returned `notice` string.
- `localeCompare` is modelled as code-point lexicographic order. Locale-aware collation is not modelled.
- The bundled pools of `./sounds.generated` are not part of this model. They are the `builtins` parameter of `SoundStore`.
- The `setTimeout` scheduling is not modelled as time. Each expiry is an explicit method that the host may call at any point after its producer.
- `closest("a.internal-link")` is the boolean input `insideInternalLink` of `OnClick`: the click target lies inside an internal link. The `MarkdownView` test and `view.file.path` are folded into the optional path given to `OnActiveLeafChange`.
- Host plumbing is not modelled. This covers `registerEvent`, `registerDomEvent`, `addSettingTab`, and installing and restoring the wrapper around `executeCommandById` (src/main.ts:125-143). Only the wrapper's rule is kept.
- `saveData(this.settings)` is modelled as storing every field verbatim (`Settings.Persisted`). `loadData` is an optional record with optional, well-typed fields. Not modelled: the JSON encoding, stored values of the wrong type, extra stored keys, and the `await this.plugin.saveSettings()` that every settings handler makes.
- The settings start as `DefaultSettings` when the plugin object is built. In the source, `settings` has no initialiser and stays undefined until `loadSettings` runs in `onload`. The model does not represent that undefined phase.
- The `async`/`await` interleaving of overlapping `loadCustomSounds` calls is not modelled. Each load is atomic.
- The rendering in `display()` is not modelled: headings, slider limits, placeholders and descriptions.

/**
 * The plugin object of src/main.ts: the navigation classifier that decides,
 * on every active-leaf change, whether a sound is requested and which, and
 * the producers of the short-lived cause flags it consults.
 *
 * The transitions are first given as functions on `NavState`; the class
 * `PageFlipSoundsPlugin` holds the same state in fields and has one method
 * per event, each proved to make exactly the transition of its function.
 */
module Plugin {
  import opened Wrappers
  import opened JsStrings
  import opened Settings
  import Audio

  /** The identity of a workspace leaf (the source compares leaves by reference). */
  type LeafId = nat

  /** What a vault "create" event carries: a file with its extension, or a folder. */
  datatype AbstractFile = TFile(path: string, extension: string) | TFolder(path: string)

  /** The classifier's private fields. */
  datatype NavState = NavState(
    lastActiveLeaf: Option<LeafId>,
    lastFilePath: Option<string>,
    recentlyCreatedFiles: set<string>,
    isInternalLinkNavigation: bool,
    isDailyNoteNavigation: bool)

  const InitialNavState: NavState := NavState(None, None, {}, false, false)

  /** The state after an event, and the pool of the one sound it requests, if any. */
  datatype Reaction = Reaction(state: NavState, sound: Option<Audio.SoundPool>)

  /** A `playSound(pool, volume)` call. */
  datatype SoundRequest = SoundRequest(pool: Audio.SoundPool, volume: real)

  // ---------------------------------------------------------------------------
  // The active-leaf-change classifier

  /** Nothing changed, or only the file changed on a leaf whose previous file was still unresolved. */
  predicate Suppressed(s: NavState, leaf: Option<LeafId>, filePath: Option<string>) {
    leaf == s.lastActiveLeaf && (filePath == s.lastFilePath || s.lastFilePath.None?)
  }

  /** The event reaches the priority cascade. */
  predicate Classifies(s: NavState, cfg: PageFlipSoundsSettings, leaf: Option<LeafId>, filePath: Option<string>) {
    cfg.enabled && leaf.Some? && !Suppressed(s, leaf, filePath)
  }

  /** The new file is a non-empty path created moments ago. */
  predicate IsRecentlyCreated(s: NavState, filePath: Option<string>) {
    filePath.Some? && filePath.value != "" && filePath.value in s.recentlyCreatedFiles
  }

  /**
   * The `active-leaf-change` handler. Disabled or leafless events change
   * nothing; every other event records the leaf and the file first. Past the
   * suppression rule, the first cause that applies decides, in this order:
   * a just-created file (new-note), the daily-note flag, the internal-link
   * flag, then a tab switch or a file change (page-flip). Only the cause that
   * decides is consumed, and a sound is requested only if its toggle is on.
   */
  function LeafChange(s: NavState, cfg: PageFlipSoundsSettings, leaf: Option<LeafId>, filePath: Option<string>): (r: Reaction)
    ensures !cfg.enabled || leaf.None? ==> r == Reaction(s, None)
    ensures cfg.enabled && leaf.Some? ==> r.state.lastActiveLeaf == leaf && r.state.lastFilePath == filePath
    ensures cfg.enabled && leaf.Some? && Suppressed(s, leaf, filePath) ==>
      r == Reaction(s.(lastActiveLeaf := leaf, lastFilePath := filePath), None)
    ensures Classifies(s, cfg, leaf, filePath) && IsRecentlyCreated(s, filePath) ==>
      r.sound == (if cfg.onCreateNote then Some(Audio.NewNote) else None) &&
      r.state.recentlyCreatedFiles == s.recentlyCreatedFiles - {filePath.value} &&
      r.state.isDailyNoteNavigation == s.isDailyNoteNavigation &&
      r.state.isInternalLinkNavigation == s.isInternalLinkNavigation
    ensures Classifies(s, cfg, leaf, filePath) && !IsRecentlyCreated(s, filePath) && s.isDailyNoteNavigation ==>
      r.sound == (if cfg.onDailyNote then Some(Audio.PageFlip) else None) &&
      !r.state.isDailyNoteNavigation &&
      r.state.isInternalLinkNavigation == s.isInternalLinkNavigation &&
      r.state.recentlyCreatedFiles == s.recentlyCreatedFiles
    ensures (Classifies(s, cfg, leaf, filePath) && !IsRecentlyCreated(s, filePath) && !s.isDailyNoteNavigation &&
             s.isInternalLinkNavigation) ==>
      r.sound == (if cfg.onInternalLink then Some(Audio.PageFlip) else None) &&
      !r.state.isInternalLinkNavigation && !r.state.isDailyNoteNavigation &&
      r.state.recentlyCreatedFiles == s.recentlyCreatedFiles
    ensures (Classifies(s, cfg, leaf, filePath) && !IsRecentlyCreated(s, filePath) && !s.isDailyNoteNavigation &&
             !s.isInternalLinkNavigation) ==>
      r.state == s.(lastActiveLeaf := leaf, lastFilePath := filePath) &&
      r.sound == (if (leaf != s.lastActiveLeaf && cfg.onSwitchTab) || (filePath != s.lastFilePath && cfg.onOpenNote)
                  then Some(Audio.PageFlip) else None)
    ensures r.sound != Some(Audio.Checkbox)
    ensures r.state.recentlyCreatedFiles <= s.recentlyCreatedFiles
    ensures r.state.isDailyNoteNavigation ==> s.isDailyNoteNavigation
    ensures r.state.isInternalLinkNavigation ==> s.isInternalLinkNavigation
  {
    if !cfg.enabled || leaf.None? then Reaction(s, None)
    else
      var isNewLeaf := leaf != s.lastActiveLeaf;
      var isNewFile := filePath != s.lastFilePath;
      var prevFilePath := s.lastFilePath;
      var t := s.(lastActiveLeaf := leaf, lastFilePath := filePath);
      if !isNewLeaf && !isNewFile then Reaction(t, None)
      else if !isNewLeaf && isNewFile && prevFilePath.None? then Reaction(t, None)
      else Cascade(t, cfg, isNewLeaf, isNewFile, filePath)
  }

  /**
   * The priority cascade of an event that was not suppressed, on the state
   * `t` in which the leaf and the file are already recorded.
   */
  function Cascade(t: NavState, cfg: PageFlipSoundsSettings, isNewLeaf: bool, isNewFile: bool,
                   filePath: Option<string>): Reaction
  {
    if filePath.Some? && filePath.value != "" && filePath.value in t.recentlyCreatedFiles then
      Reaction(t.(recentlyCreatedFiles := t.recentlyCreatedFiles - {filePath.value}),
               if cfg.onCreateNote then Some(Audio.NewNote) else None)
    else if t.isDailyNoteNavigation then
      Reaction(t.(isDailyNoteNavigation := false), if cfg.onDailyNote then Some(Audio.PageFlip) else None)
    else if t.isInternalLinkNavigation then
      Reaction(t.(isInternalLinkNavigation := false), if cfg.onInternalLink then Some(Audio.PageFlip) else None)
    else if isNewLeaf && cfg.onSwitchTab then Reaction(t, Some(Audio.PageFlip))
    else if isNewFile && cfg.onOpenNote then Reaction(t, Some(Audio.PageFlip))
    else Reaction(t, None)
  }

  /** The `playSound` call a reaction makes, at the given volume. */
  function AsRequest(sound: Option<Audio.SoundPool>, volume: real): Option<SoundRequest> {
    if sound.Some? then Some(SoundRequest(sound.value, volume)) else None
  }

  // ---------------------------------------------------------------------------
  // The producers of the causes, and their timers

  predicate IsMarkdownFile(file: AbstractFile) {
    file.TFile? && file.extension == "md"
  }

  /** The vault "create" handler: a markdown file's path joins the recently-created set; nothing else changes. */
  function FileCreated(s: NavState, file: AbstractFile): (r: NavState)
    ensures file.path in r.recentlyCreatedFiles <==> file.path in s.recentlyCreatedFiles || IsMarkdownFile(file)
    ensures r.recentlyCreatedFiles - {file.path} == s.recentlyCreatedFiles - {file.path}
    ensures r.(recentlyCreatedFiles := s.recentlyCreatedFiles) == s
  {
    if IsMarkdownFile(file) then s.(recentlyCreatedFiles := s.recentlyCreatedFiles + {file.path}) else s
  }

  /** The one-second timer of a create event: that path leaves the set; nothing else changes. */
  function CreatedExpired(s: NavState, path: string): (r: NavState)
    ensures path !in r.recentlyCreatedFiles
    ensures r.recentlyCreatedFiles + {path} == s.recentlyCreatedFiles + {path}
    ensures r.(recentlyCreatedFiles := s.recentlyCreatedFiles) == s
  {
    s.(recentlyCreatedFiles := s.recentlyCreatedFiles - {path})
  }

  /** The capturing click handler: a click inside an internal link, while enabled, raises the link flag. */
  function LinkClicked(s: NavState, cfg: PageFlipSoundsSettings, insideInternalLink: bool): (r: NavState)
    ensures r.isInternalLinkNavigation <==> s.isInternalLinkNavigation || (cfg.enabled && insideInternalLink)
    ensures r.(isInternalLinkNavigation := s.isInternalLinkNavigation) == s
  {
    if cfg.enabled && insideInternalLink then s.(isInternalLinkNavigation := true) else s
  }

  /** The 200 ms timer of a click: the link flag drops, whoever raised it. */
  function LinkFlagExpired(s: NavState): (r: NavState)
    ensures !r.isInternalLinkNavigation
    ensures r.(isInternalLinkNavigation := s.isInternalLinkNavigation) == s
  {
    s.(isInternalLinkNavigation := false)
  }

  /** The command identifiers whose execution counts as daily-note navigation. */
  const DailyNoteCommandIds: seq<string> := ["daily-notes:goto-next", "daily-notes:goto-prev", "daily-notes"]

  /** `dailyNoteCommandIds.some(id => commandId.includes(id))`. */
  predicate IsDailyNoteCommand(commandId: string) {
    exists k :: 0 <= k < |DailyNoteCommandIds| && Includes(commandId, DailyNoteCommandIds[k])
  }

  /**
   * The last listed id is a prefix of the other two, so the rule comes down
   * to one substring test.
   */
  lemma DailyNoteCommandMatch(commandId: string)
    ensures IsDailyNoteCommand(commandId) <==> Includes(commandId, "daily-notes")
  {
    var ids := DailyNoteCommandIds;
    if IsDailyNoteCommand(commandId) {
      var k :| 0 <= k < |ids| && Includes(commandId, ids[k]);
      assert "daily-notes" <= ids[k];
      IncludesPrefix(commandId, ids[k], "daily-notes");
    } else {
      assert !Includes(commandId, ids[2]);
    }
  }

  /** The wrapped `executeCommandById`: a daily-note command, while enabled, raises the daily-note flag. */
  function CommandExecuted(s: NavState, cfg: PageFlipSoundsSettings, commandId: string): (r: NavState)
    ensures r.isDailyNoteNavigation <==> s.isDailyNoteNavigation || (cfg.enabled && IsDailyNoteCommand(commandId))
    ensures r.(isDailyNoteNavigation := s.isDailyNoteNavigation) == s
  {
    if cfg.enabled && IsDailyNoteCommand(commandId) then s.(isDailyNoteNavigation := true) else s
  }

  /** The 100 ms timer of a daily-note command: the daily-note flag drops, whoever raised it. */
  function DailyFlagExpired(s: NavState): (r: NavState)
    ensures !r.isDailyNoteNavigation
    ensures r.(isDailyNoteNavigation := s.isDailyNoteNavigation) == s
  {
    s.(isDailyNoteNavigation := false)
  }

  /** `onunload`: the leaf, the file and the created set are forgotten; the two flags are not. */
  function Unloaded(s: NavState): (r: NavState)
    ensures r.lastActiveLeaf.None? && r.lastFilePath.None? && r.recentlyCreatedFiles == {}
    ensures r.isInternalLinkNavigation == s.isInternalLinkNavigation
    ensures r.isDailyNoteNavigation == s.isDailyNoteNavigation
  {
    s.(lastActiveLeaf := None, lastFilePath := None, recentlyCreatedFiles := {})
  }

  // ---------------------------------------------------------------------------
  // Sequences of events

  /**
   * A markdown note is created and then shown in a new leaf: the one sound is
   * new-note (if on), never page-flip, and the path leaves the created set.
   */
  lemma CreateThenOpen(s: NavState, cfg: PageFlipSoundsSettings, path: string, leaf: LeafId)
    requires cfg.enabled && path != "" && Some(leaf) != s.lastActiveLeaf
    ensures var r := LeafChange(FileCreated(s, TFile(path, "md")), cfg, Some(leaf), Some(path));
      r.sound == (if cfg.onCreateNote then Some(Audio.NewNote) else None) &&
      path !in r.state.recentlyCreatedFiles &&
      r.state.isDailyNoteNavigation == s.isDailyNoteNavigation &&
      r.state.isInternalLinkNavigation == s.isInternalLinkNavigation
  {
  }

  /**
   * A click on an internal link, then the same leaf shows another file: one
   * page-flip (if on), and the flag is down again at once.
   */
  lemma LinkClickThenNavigate(s: NavState, cfg: PageFlipSoundsSettings, leaf: LeafId, x: string, y: string)
    requires cfg.enabled && s.lastActiveLeaf == Some(leaf) && s.lastFilePath == Some(x) && y != x
    requires !s.isDailyNoteNavigation && y !in s.recentlyCreatedFiles
    ensures var r := LeafChange(LinkClicked(s, cfg, true), cfg, Some(leaf), Some(y));
      r.sound == (if cfg.onInternalLink then Some(Audio.PageFlip) else None) &&
      !r.state.isInternalLinkNavigation
  {
  }

  /**
   * A new leaf is activated before its file resolves, then the same leaf
   * reports the resolved file: the second event is silent and consumes no
   * cause, so the pair yields at most the first event's sound.
   */
  lemma DelayedResolveSoundsOnce(s: NavState, cfg: PageFlipSoundsSettings, leaf: LeafId, z: string)
    requires Some(leaf) != s.lastActiveLeaf
    ensures var r1 := LeafChange(s, cfg, Some(leaf), None);
      var r2 := LeafChange(r1.state, cfg, Some(leaf), Some(z));
      r2.sound.None? &&
      r2.state.recentlyCreatedFiles == r1.state.recentlyCreatedFiles &&
      r2.state.isDailyNoteNavigation == r1.state.isDailyNoteNavigation &&
      r2.state.isInternalLinkNavigation == r1.state.isInternalLinkNavigation
  {
  }

  /**
   * The timers are never cancelled: a click whose flag was consumed, then a
   * second click, then the first click's timer, leaves the second click's
   * flag down, so the link navigation that follows is classified as an
   * ordinary file change and plays only if `onOpenNote` is on.
   */
  lemma StaleLinkTimerClearsNewFlag(s: NavState, cfg: PageFlipSoundsSettings, leaf: LeafId, path: string, next: string)
    requires cfg.enabled && Some(leaf) != s.lastActiveLeaf
    requires !s.isDailyNoteNavigation && path !in s.recentlyCreatedFiles
    requires next != path && next !in s.recentlyCreatedFiles
    ensures var consumed := LeafChange(LinkClicked(s, cfg, true), cfg, Some(leaf), Some(path));
      var again := LinkClicked(consumed.state, cfg, true);
      var nav := LeafChange(LinkFlagExpired(again), cfg, Some(leaf), Some(next));
      !consumed.state.isInternalLinkNavigation && again.isInternalLinkNavigation &&
      nav.sound == (if cfg.onOpenNote then Some(Audio.PageFlip) else None)
  {
  }

  // ---------------------------------------------------------------------------
  // The plugin object

  class PageFlipSoundsPlugin {
    var settings: PageFlipSoundsSettings
    var lastActiveLeaf: Option<LeafId>
    var lastFilePath: Option<string>
    var recentlyCreatedFiles: set<string>
    var isInternalLinkNavigation: bool
    var isDailyNoteNavigation: bool
    /** The audio module's state, which the plugin and its settings tab share. */
    const sounds: Audio.SoundStore

    function State(): NavState
      reads this
    {
      NavState(lastActiveLeaf, lastFilePath, recentlyCreatedFiles, isInternalLinkNavigation, isDailyNoteNavigation)
    }

    /** The field initialisers; `settings` is given the defaults until `Onload` loads them. */
    constructor (sounds: Audio.SoundStore)
      ensures State() == InitialNavState && settings == DefaultSettings && this.sounds == sounds
    {
      settings := DefaultSettings;
      lastActiveLeaf := None;
      lastFilePath := None;
      recentlyCreatedFiles := {};
      isInternalLinkNavigation := false;
      isDailyNoteNavigation := false;
      this.sounds := sounds;
    }

    /** `loadSettings`: the stored fields merged over the defaults. */
    method LoadSettings(data: Option<StoredSettings>)
      modifies this`settings
      ensures settings == MergeSettings(data)
    {
      settings := MergeSettings(data);
    }

    /**
     * The state-changing part of `onload`: load the settings, then load the
     * custom sounds when a folder is configured.
     */
    method Onload(data: Option<StoredSettings>, vault: Audio.Vault)
      returns (warnings: seq<string>, notice: Option<string>, readLog: seq<string>)
      requires sounds.Valid()
      modifies this`settings, sounds
      ensures sounds.Valid() && settings == MergeSettings(data)
      ensures settings.customSoundsFolder != "" ==>
        var out := Audio.LoadCustomSoundsSpec(old(sounds.State()), vault, settings.customSoundsFolder);
        sounds.State() == out.state && warnings == out.warnings && readLog == out.readLog &&
        notice == (if |warnings| > 0 then Some(Audio.NoticeText(warnings)) else None)
      ensures settings.customSoundsFolder == "" ==>
        sounds.State() == old(sounds.State()) && warnings == [] && notice.None? && readLog == []
    {
      LoadSettings(data);
      warnings, notice, readLog := [], None, [];
      if settings.customSoundsFolder != "" {
        warnings, notice, readLog := sounds.LoadCustomSounds(vault, settings.customSoundsFolder);
      }
    }

    /** The vault "create" handler. */
    method OnCreate(file: AbstractFile)
      modifies this`recentlyCreatedFiles
      ensures State() == FileCreated(old(State()), file)
    {
      if file.TFile? && file.extension == "md" {
        recentlyCreatedFiles := recentlyCreatedFiles + {file.path};
      }
    }

    /** The timer the "create" handler schedules for `path`. */
    method OnCreateTimer(path: string)
      modifies this`recentlyCreatedFiles
      ensures State() == CreatedExpired(old(State()), path)
    {
      recentlyCreatedFiles := recentlyCreatedFiles - {path};
    }

    /**
     * The `active-leaf-change` handler, for a leaf (or none) whose view shows
     * `filePath` (none when it is not a markdown view or has no file yet).
     */
    method OnActiveLeafChange(leaf: Option<LeafId>, filePath: Option<string>) returns (request: Option<SoundRequest>)
      modifies this`lastActiveLeaf, this`lastFilePath, this`recentlyCreatedFiles,
               this`isInternalLinkNavigation, this`isDailyNoteNavigation
      ensures var r := LeafChange(old(State()), settings, leaf, filePath);
        State() == r.state && request == AsRequest(r.sound, settings.volume)
    {
      request := None;
      if !settings.enabled || leaf.None? {
        return;
      }
      var isNewLeaf := leaf != lastActiveLeaf;
      var isNewFile := filePath != lastFilePath;
      var prevFilePath := lastFilePath;
      lastActiveLeaf := leaf;
      lastFilePath := filePath;
      if !isNewLeaf && !isNewFile {
        return;
      }
      if !isNewLeaf && isNewFile && prevFilePath.None? {
        return;
      }
      request := PlayCause(isNewLeaf, isNewFile, filePath);
    }

    /** The cascade of the handler, once the leaf and the file are recorded. */
    method PlayCause(isNewLeaf: bool, isNewFile: bool, filePath: Option<string>) returns (request: Option<SoundRequest>)
      modifies this`recentlyCreatedFiles, this`isInternalLinkNavigation, this`isDailyNoteNavigation
      ensures var r := Cascade(old(State()), settings, isNewLeaf, isNewFile, filePath);
        State() == r.state && request == AsRequest(r.sound, settings.volume)
    {
      request := None;
      if filePath.Some? && filePath.value != "" && filePath.value in recentlyCreatedFiles {
        if settings.onCreateNote {
          request := Some(SoundRequest(Audio.NewNote, settings.volume));
        }
        recentlyCreatedFiles := recentlyCreatedFiles - {filePath.value};
        return;
      }
      if isDailyNoteNavigation {
        isDailyNoteNavigation := false;
        if settings.onDailyNote {
          request := Some(SoundRequest(Audio.PageFlip, settings.volume));
        }
        return;
      }
      if isInternalLinkNavigation {
        isInternalLinkNavigation := false;
        if settings.onInternalLink {
          request := Some(SoundRequest(Audio.PageFlip, settings.volume));
        }
        return;
      }
      if isNewLeaf && settings.onSwitchTab {
        request := Some(SoundRequest(Audio.PageFlip, settings.volume));
      } else if isNewFile && settings.onOpenNote {
        request := Some(SoundRequest(Audio.PageFlip, settings.volume));
      }
    }

    /** The capturing click handler; `insideInternalLink` says whether the target lies inside an internal link. */
    method OnClick(insideInternalLink: bool)
      modifies this`isInternalLinkNavigation
      ensures State() == LinkClicked(old(State()), settings, insideInternalLink)
    {
      if !settings.enabled {
        return;
      }
      if insideInternalLink {
        isInternalLinkNavigation := true;
      }
    }

    /** The timer a link click schedules. */
    method OnClickTimer()
      modifies this`isInternalLinkNavigation
      ensures State() == LinkFlagExpired(old(State()))
    {
      isInternalLinkNavigation := false;
    }

    /**
     * The wrapper installed over `executeCommandById`: it may raise the
     * daily-note flag, and always passes the identifier on to the original
     * dispatcher.
     */
    method ExecuteCommandById(commandId: string) returns (forwarded: string)
      modifies this`isDailyNoteNavigation
      ensures State() == CommandExecuted(old(State()), settings, commandId)
      ensures forwarded == commandId
    {
      if settings.enabled && IsDailyNoteCommand(commandId) {
        isDailyNoteNavigation := true;
      }
      forwarded := commandId;
    }

    /** The timer the command wrapper schedules. */
    method OnCommandTimer()
      modifies this`isDailyNoteNavigation
      ensures State() == DailyFlagExpired(old(State()))
    {
      isDailyNoteNavigation := false;
    }

    /** `onunload`. */
    method OnUnload()
      modifies this`lastActiveLeaf, this`lastFilePath, this`recentlyCreatedFiles
      ensures State() == Unloaded(old(State()))
    {
      lastActiveLeaf := None;
      lastFilePath := None;
      recentlyCreatedFiles := {};
    }
  }
}

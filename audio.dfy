/**
 * The sound store of src/audio.ts: the built-in and custom sound pools, the
 * random choice among them, and the loader that fills the custom pools from a
 * vault folder. The two module-level variables `customSounds` and
 * `customSoundsPath` are the fields of the one `SoundStore` object.
 */
module Audio {
  import opened Wrappers
  import opened JsStrings
  import opened Base64

  /**
   * The pool a caller asks for. The source declares only "page-flip" and
   * "new-note"; the checkbox preview passes "checkbox" anyway, which takes the
   * branch of every value that is not "page-flip".
   */
  datatype SoundPool = PageFlip | NewNote | Checkbox

  /** Loaded custom sounds: data URLs per pool. */
  datatype CustomSounds = CustomSounds(pageFlip: seq<string>, newNote: seq<string>)

  /** The bundled sounds: base64 texts per pool. */
  datatype BuiltinSounds = BuiltinSounds(pageFlip: seq<string>, newNote: seq<string>)

  /** The values of the two module variables together. */
  datatype CustomState = CustomState(sounds: Option<CustomSounds>, path: Option<string>)

  /** A one-shot playback request: what `new Audio(url)` is given, at what volume. */
  datatype Playback = Playback(url: string, volume: real)

  // ---------------------------------------------------------------------------
  // Data URLs

  const DataUrlPrefix: string := "data:audio/ogg;base64,"

  predicate IsOggDataUrl(url: string) {
    DataUrlPrefix <= url
  }

  /** The base64 text carried by a data URL. */
  function DataUrlPayload(url: string): string
    requires IsOggDataUrl(url)
  {
    url[|DataUrlPrefix|..]
  }

  /** `base64ToDataUrl`: a data URL whose payload is exactly `base64`. */
  function Base64ToDataUrl(base64: string): (url: string)
    ensures IsOggDataUrl(url) && DataUrlPayload(url) == base64
    ensures |url| == |DataUrlPrefix| + |base64|
  {
    DataUrlPrefix + base64
  }

  /** Every data URL is rebuilt from its payload, so `Base64ToDataUrl` is a bijection onto them. */
  lemma DataUrlRoundTrip(url: string)
    requires IsOggDataUrl(url)
    ensures Base64ToDataUrl(DataUrlPayload(url)) == url
  {
    assert url == url[..|DataUrlPrefix|] + url[|DataUrlPrefix|..];
  }

  predicate AllDataUrls(urls: seq<string>) {
    forall k :: 0 <= k < |urls| ==> IsOggDataUrl(urls[k])
  }

  // ---------------------------------------------------------------------------
  // Random choice

  /** `Math.floor(rnd * n)` for a draw `rnd` of `Math.random`: an index into a pool of `n`. */
  function RandomIndex(rnd: real, n: nat): (i: nat)
    requires 0.0 <= rnd < 1.0 && n > 0
    ensures i < n
  {
    assert 0.0 <= rnd * n as real < n as real;
    (rnd * n as real).Floor
  }

  /** `pickRandom`: nothing for an empty pool, otherwise one of its elements. */
  function PickRandom<T>(arr: seq<T>, rnd: real): (r: Option<T>)
    requires 0.0 <= rnd < 1.0
    ensures r.None? <==> |arr| == 0
    ensures r.Some? ==> r.value in arr
  {
    if |arr| == 0 then None else Some(arr[RandomIndex(rnd, |arr|)])
  }

  /** Every element of a pool is picked by some draw: the choice can reach the whole pool. */
  lemma PickRandomReachesEvery<T>(arr: seq<T>, i: nat)
    requires i < |arr|
    ensures exists rnd: real :: 0.0 <= rnd < 1.0 && PickRandom(arr, rnd) == Some(arr[i])
  {
    var n := |arr| as real;
    var rnd := i as real / n;
    assert rnd * n == i as real;
    assert RandomIndex(rnd, |arr|) == i;
    assert PickRandom(arr, rnd) == Some(arr[i]);
  }

  // ---------------------------------------------------------------------------
  // The vault as seen by the loader

  /** What `vault.readBinary` gives for a file: its bytes, or the error it throws. */
  datatype ReadResult = Bytes(data: seq<byte>) | ReadError(message: string)

  /** A child of a folder: a file (it has an `extension`) or a sub-folder (it has none). */
  datatype Child = FileChild(name: string, content: ReadResult) | FolderChild(name: string)

  /** `vault.getFolderByPath`: the folders that exist, each with its children. */
  type Vault = map<string, seq<Child>>

  predicate IsOggName(name: string) {
    EndsWith(name, ".ogg")
  }

  /** The `.filter(f => f.name.endsWith('.ogg'))` step: exactly the children with an ogg name, each as often as before. */
  function OggChildren(children: seq<Child>): (r: seq<Child>)
    ensures forall c :: multiset(r)[c] == if IsOggName(c.name) then multiset(children)[c] else 0
    decreases |children|
  {
    if |children| == 0 then []
    else
      var rest := OggChildren(children[1..]);
      assert children == [children[0]] + children[1..];
      if IsOggName(children[0].name) then [children[0]] + rest else rest
  }

  predicate SortedByName(s: seq<Child>) {
    forall i, j :: 0 <= i < j < |s| ==> LexLe(s[i].name, s[j].name)
  }

  /** A sorted list stays sorted behind an element that sorts before all of it. */
  lemma SortedCons(x: Child, rest: seq<Child>)
    requires SortedByName(rest) && forall y :: y in rest ==> LexLe(x.name, y.name)
    ensures SortedByName([x] + rest)
  {
    var r := [x] + rest;
    forall i, j | 0 <= i < j < |r| ensures LexLe(r[i].name, r[j].name) {
      assert r[j] == rest[j - 1];
      if i > 0 { assert r[i] == rest[i - 1]; }
    }
  }

  /** Whatever sorts before the head of a sorted list sorts before all of it. */
  lemma BeforeHead(c: Child, s: seq<Child>)
    requires SortedByName(s) && (|s| == 0 || LexLe(c.name, s[0].name))
    ensures forall y :: y in s ==> LexLe(c.name, y.name)
  {
    forall y | y in s ensures LexLe(c.name, y.name) {
      var j :| 0 <= j < |s| && s[j] == y;
      if j > 0 { LexLeTrans(c.name, s[0].name, y.name); }
    }
  }

  /** The head of a sorted list sorts before the tail with an element inserted that sorts after the head. */
  lemma HeadBeforeInserted(c: Child, s: seq<Child>, rest: seq<Child>)
    requires SortedByName(s) && |s| > 0 && LexLe(s[0].name, c.name)
    requires forall x :: x in rest ==> x == c || x in s[1..]
    ensures forall y :: y in rest ==> LexLe(s[0].name, y.name)
  {
    forall y | y in rest ensures LexLe(s[0].name, y.name) {
      if y != c {
        var j :| 0 <= j < |s[1..]| && s[1..][j] == y;
        assert s[j + 1] == y;
      }
    }
  }

  /** Places `c` in front of the first element it does not sort after. */
  function InsertByName(c: Child, s: seq<Child>): (r: seq<Child>)
    requires SortedByName(s)
    ensures SortedByName(r)
    ensures multiset(r) == multiset(s) + multiset{c}
    ensures |r| == |s| + 1
    ensures forall x :: x in r ==> x == c || x in s
    decreases |s|
  {
    if |s| == 0 || LexLe(c.name, s[0].name) then
      BeforeHead(c, s);
      SortedCons(c, s);
      [c] + s
    else
      LexLeTotal(c.name, s[0].name);
      var rest := InsertByName(c, s[1..]);
      assert s == [s[0]] + s[1..];
      HeadBeforeInserted(c, s, rest);
      SortedCons(s[0], rest);
      [s[0]] + rest
  }

  /** The `.sort((a, b) => a.name.localeCompare(b.name))` step: a permutation in ascending name order. */
  function SortByName(s: seq<Child>): (r: seq<Child>)
    ensures SortedByName(r)
    ensures multiset(r) == multiset(s)
    decreases |s|
  {
    if |s| == 0 then []
    else
      assert s == [s[0]] + s[1..];
      InsertByName(s[0], SortByName(s[1..]))
  }

  /** The files of one category folder, in the order they are read. */
  function CategoryFiles(children: seq<Child>): seq<Child> {
    SortByName(OggChildren(children))
  }

  /** The data URL one file's bytes become. */
  function FileUrl(data: seq<byte>): string {
    Base64ToDataUrl(Btoa(BinaryString(data)))
  }

  /** The result of reading a list of files in order until one read throws. */
  datatype Reading = Reading(urls: seq<string>, readLog: seq<string>, failure: Option<string>)

  /** One iteration of the loop, in front of what the rest of the loop reads. */
  function ReadStep(file: Child, rest: Reading): Reading {
    match file
    case FolderChild(_) => rest
    case FileChild(name, ReadError(e)) => Reading([], [name], Some(e))
    case FileChild(name, Bytes(data)) => Reading([FileUrl(data)] + rest.urls, [name] + rest.readLog, rest.failure)
  }

  /**
   * The `for (const file of files)` loop: sub-folders are skipped, each file
   * is read and becomes a data URL; the first read that throws ends the loop
   * and is reported, keeping the URLs already pushed.
   */
  function ReadFiles(files: seq<Child>): (r: Reading)
    ensures AllDataUrls(r.urls)
    ensures |r.urls| <= |r.readLog| <= |files|
    decreases |files|
  {
    if |files| == 0 then Reading([], [], None)
    else ReadStep(files[0], ReadFiles(files[1..]))
  }

  /** What the loop has pushed so far, in front of what the rest of it reads. */
  function Prefixed(urls: seq<string>, readLog: seq<string>, rest: Reading): Reading {
    Reading(urls + rest.urls, readLog + rest.readLog, rest.failure)
  }

  /** A file read successfully moves its URL and its name from the rest of the loop to what was pushed. */
  lemma PrefixedRead(urls: seq<string>, readLog: seq<string>, name: string, data: seq<byte>, rest: Reading)
    ensures Prefixed(urls, readLog, ReadStep(FileChild(name, Bytes(data)), rest)) ==
            Prefixed(urls + [FileUrl(data)], readLog + [name], rest)
  {
    assert urls + ([FileUrl(data)] + rest.urls) == urls + [FileUrl(data)] + rest.urls;
    assert readLog + ([name] + rest.readLog) == readLog + [name] + rest.readLog;
  }

  lemma ReadFilesAt(files: seq<Child>, i: nat)
    requires i < |files|
    ensures ReadFiles(files[i..]) == ReadStep(files[i], ReadFiles(files[i + 1..]))
  {
    assert files[i..][1..] == files[i + 1..];
  }

  /** The files of a list that are read, in order. */
  function FilesOnly(files: seq<Child>): (r: seq<Child>)
    ensures forall x :: x in r <==> x in files && x.FileChild?
    ensures SortedByName(files) ==> SortedByName(r)
    decreases |files|
  {
    if |files| == 0 then []
    else if files[0].FileChild? then [files[0]] + FilesOnly(files[1..])
    else FilesOnly(files[1..])
  }

  predicate AllReadable(files: seq<Child>) {
    forall k :: 0 <= k < |files| ==> files[k].FileChild? ==> files[k].content.Bytes?
  }

  /** When no read throws, there is one URL per file, in file order, built from that file's bytes. */
  lemma {:induction false} ReadFilesAllReadable(files: seq<Child>)
    requires AllReadable(files)
    ensures ReadFiles(files).failure.None?
    ensures |ReadFiles(files).urls| == |FilesOnly(files)|
    ensures forall k :: 0 <= k < |FilesOnly(files)| ==>
              ReadFiles(files).urls[k] == FileUrl(FilesOnly(files)[k].content.data)
    decreases |files|
  {
    if |files| > 0 {
      assert AllReadable(files[1..]) by {
        forall k | 0 <= k < |files[1..]| ensures files[1..][k].FileChild? ==> files[1..][k].content.Bytes? {
          assert files[1..][k] == files[k + 1];
        }
      }
      ReadFilesAllReadable(files[1..]);
    }
  }

  /** A step that does not fail passes whatever follows it through unchanged. */
  lemma StepThenRest(file: Child, pre: Reading, rest: Reading)
    requires pre.failure.None? && ReadStep(file, pre).failure.None?
    ensures ReadStep(file, Prefixed(pre.urls, pre.readLog, rest)) ==
            Prefixed(ReadStep(file, pre).urls, ReadStep(file, pre).readLog, rest)
  {
  }

  /**
   * A failed read keeps what came before it: reading a list is reading a
   * prefix that did not fail, followed by reading the rest.
   */
  lemma {:induction false} ReadFilesSplit(files: seq<Child>, k: nat)
    requires k <= |files| && ReadFiles(files[..k]).failure.None?
    ensures ReadFiles(files) == Prefixed(ReadFiles(files[..k]).urls, ReadFiles(files[..k]).readLog, ReadFiles(files[k..]))
    decreases k
  {
    if k == 0 {
      assert files[..0] == [] && files[0..] == files;
    } else {
      var prefix := files[..k];
      assert prefix[1..] == files[1..][..k - 1];
      assert files[1..][k - 1..] == files[k..];
      var inner := ReadFiles(files[1..][..k - 1]);
      assert ReadFiles(prefix) == ReadStep(files[0], inner);
      assert inner.failure.None? by {
        if inner.failure.Some? {
          assert ReadStep(files[0], inner).failure.Some?;
        }
      }
      ReadFilesSplit(files[1..], k - 1);
      StepThenRest(files[0], inner, ReadFiles(files[k..]));
    }
  }

  // ---------------------------------------------------------------------------
  // The loader

  /** What loading one category produced: its pool, its warnings (at most one), the files read. */
  datatype CategoryLoad = CategoryLoad(urls: seq<string>, warnings: seq<string>, readLog: seq<string>)

  /** The sub-folder of the custom folder that holds one category: `${folderPath}/page-flip`, `${folderPath}/new-note`. */
  function CategoryDir(folderPath: string, subfolder: string): string {
    folderPath + "/" + subfolder
  }

  function FolderNotFound(subfolder: string, dir: string): string {
    subfolder + " folder not found at " + dir
  }

  function LoadError(subfolder: string, e: string): string {
    "Error loading " + subfolder + " sounds: " + e
  }

  /**
   * One `try` block of `loadCustomSounds`, for the category stored in
   * `<folderPath>/<subfolder>`: a missing folder gives an empty pool and one
   * warning naming the path; a read that throws gives one warning and keeps
   * the URLs read before it.
   */
  function LoadCategorySpec(vault: Vault, folderPath: string, subfolder: string): (r: CategoryLoad)
    ensures var dir := CategoryDir(folderPath, subfolder);
      dir !in vault ==> r == CategoryLoad([], [FolderNotFound(subfolder, dir)], [])
    ensures var dir := CategoryDir(folderPath, subfolder);
      dir in vault ==> (r.urls == ReadFiles(CategoryFiles(vault[dir])).urls && |r.warnings| <= 1 &&
        (r.warnings == [] <==> ReadFiles(CategoryFiles(vault[dir])).failure.None?))
    ensures AllDataUrls(r.urls)
  {
    var dir := CategoryDir(folderPath, subfolder);
    if dir !in vault then CategoryLoad([], [FolderNotFound(subfolder, dir)], [])
    else
      var reading := ReadFiles(CategoryFiles(vault[dir]));
      var warnings := if reading.failure.Some? then [LoadError(subfolder, reading.failure.value)] else [];
      CategoryLoad(reading.urls, warnings, reading.readLog)
  }

  /** The outcome of one `loadCustomSounds` call: the new module state, the warnings, the files read. */
  datatype LoadOutcome = LoadOutcome(state: CustomState, warnings: seq<string>, readLog: seq<string>)

  /**
   * `loadCustomSounds`: an empty path clears both variables; the path already
   * loaded is a cache hit that reads nothing; any other path loads both
   * categories independently and installs the result with its path, whatever
   * warnings arose.
   */
  function LoadCustomSoundsSpec(st: CustomState, vault: Vault, folderPath: string): (r: LoadOutcome)
    ensures folderPath == "" ==> r == LoadOutcome(CustomState(None, None), [], [])
    ensures folderPath != "" && st.path == Some(folderPath) && st.sounds.Some? ==> r == LoadOutcome(st, [], [])
    ensures folderPath != "" && !(st.path == Some(folderPath) && st.sounds.Some?) ==>
      var pf, nn := LoadCategorySpec(vault, folderPath, "page-flip"), LoadCategorySpec(vault, folderPath, "new-note");
      r.state == CustomState(Some(CustomSounds(pf.urls, nn.urls)), Some(folderPath)) &&
      r.warnings == pf.warnings + nn.warnings && r.readLog == pf.readLog + nn.readLog
  {
    if folderPath == "" then LoadOutcome(CustomState(None, None), [], [])
    else if folderPath == st.path.GetOr("") && st.sounds.Some? then LoadOutcome(st, [], [])
    else
      var pf := LoadCategorySpec(vault, folderPath, "page-flip");
      var nn := LoadCategorySpec(vault, folderPath, "new-note");
      LoadOutcome(CustomState(Some(CustomSounds(pf.urls, nn.urls)), Some(folderPath)),
                  pf.warnings + nn.warnings, pf.readLog + nn.readLog)
  }

  /**
   * With the folder present and no read failing, a category's pool holds one
   * URL per file child whose name ends in ".ogg", in ascending name order,
   * each built from that file's bytes, and there is no warning.
   */
  lemma CategoryPoolOnePerOggFile(vault: Vault, folderPath: string, subfolder: string)
    requires CategoryDir(folderPath, subfolder) in vault
    requires AllReadable(CategoryFiles(vault[CategoryDir(folderPath, subfolder)]))
    ensures var children := vault[CategoryDir(folderPath, subfolder)];
      var files := FilesOnly(CategoryFiles(children));
      var r := LoadCategorySpec(vault, folderPath, subfolder);
      r.warnings == [] && SortedByName(files) &&
      (forall c :: c in files <==> c in children && c.FileChild? && IsOggName(c.name)) &&
      |r.urls| == |files| &&
      forall k :: 0 <= k < |files| ==> r.urls[k] == FileUrl(files[k].content.data)
  {
    var children := vault[CategoryDir(folderPath, subfolder)];
    var sorted := CategoryFiles(children);
    ReadFilesAllReadable(sorted);
    forall c | c in sorted
      ensures c in children && IsOggName(c.name)
    {
      assert multiset(sorted)[c] > 0;
    }
    forall c | c in children && IsOggName(c.name)
      ensures c in sorted
    {
      assert multiset(OggChildren(children))[c] > 0;
    }
  }

  /**
   * A load where the page-flip folder is missing but the new-note folder reads
   * cleanly installs an empty page-flip pool, a new-note pool of one URL per
   * file, and exactly one warning, naming the missing path.
   */
  lemma MissingPageFlipFolder(st: CustomState, vault: Vault, folderPath: string)
    requires folderPath != "" && !(st.path == Some(folderPath) && st.sounds.Some?)
    requires CategoryDir(folderPath, "page-flip") !in vault
    requires CategoryDir(folderPath, "new-note") in vault && AllReadable(CategoryFiles(vault[CategoryDir(folderPath, "new-note")]))
    ensures var r := LoadCustomSoundsSpec(st, vault, folderPath);
      r.state.path == Some(folderPath) && r.state.sounds.Some? &&
      r.state.sounds.value.pageFlip == [] &&
      |r.state.sounds.value.newNote| == |FilesOnly(CategoryFiles(vault[CategoryDir(folderPath, "new-note")]))| &&
      r.warnings == [FolderNotFound("page-flip", CategoryDir(folderPath, "page-flip"))]
  {
    CategoryPoolOnePerOggFile(vault, folderPath, "new-note");
  }

  /** `warnings.join(sep)`. */
  function Join(parts: seq<string>, sep: string): string
    decreases |parts|
  {
    if |parts| == 0 then ""
    else if |parts| == 1 then parts[0]
    else parts[0] + sep + Join(parts[1..], sep)
  }

  /** The text of the aggregated notice shown when a load produced warnings. */
  function NoticeText(warnings: seq<string>): string {
    "Page Flip Sounds: " + Join(warnings, "; ") + ". Falling back to built-in sounds."
  }

  /**
   * `arrayBufferToBase64`: the loop turns each byte into the character with
   * that code, then `btoa` encodes the whole binary string.
   */
  method ArrayBufferToBase64(bytes: seq<byte>) returns (base64: string)
    ensures base64 == Btoa(BinaryString(bytes))
  {
    var binary := "";
    for i := 0 to |bytes|
      invariant |binary| == i
      invariant forall k :: 0 <= k < i ==> binary[k] as int == bytes[k] as int
    {
      binary := binary + [(bytes[i] as int) as char];
    }
    assert binary == BinaryString(bytes);
    base64 := Btoa(binary);
  }

  /**
   * The `for (const file of files)` loop of one `try` block: read each file
   * and push its data URL, stopping at the first read that throws.
   */
  method ReadAll(files: seq<Child>) returns (reading: Reading)
    ensures reading == ReadFiles(files)
  {
    var urls: seq<string> := [];
    var readLog: seq<string> := [];
    var i := 0;
    assert files[i..] == files;
    while i < |files|
      invariant 0 <= i <= |files|
      invariant ReadFiles(files) == Prefixed(urls, readLog, ReadFiles(files[i..]))
    {
      ReadFilesAt(files, i);
      match files[i] {
        case FolderChild(_) =>
        case FileChild(name, content) =>
          match content {
            case ReadError(e) =>
              readLog := readLog + [name];
              return Reading(urls, readLog, Some(e));
            case Bytes(data) =>
              PrefixedRead(urls, readLog, name, data, ReadFiles(files[i + 1..]));
              readLog := readLog + [name];
              var base64 := ArrayBufferToBase64(data);
              urls := urls + [Base64ToDataUrl(base64)];
          }
      }
      i := i + 1;
    }
    assert files[i..] == [];
    return Reading(urls, readLog, None);
  }

  /**
   * One `try` block of `loadCustomSounds`: look the folder up, filter and sort
   * its children, read them, and turn a thrown read error into a warning.
   */
  method LoadCategory(vault: Vault, folderPath: string, subfolder: string) returns (load: CategoryLoad)
    ensures load == LoadCategorySpec(vault, folderPath, subfolder)
  {
    var dir := CategoryDir(folderPath, subfolder);
    if dir !in vault {
      return CategoryLoad([], [FolderNotFound(subfolder, dir)], []);
    }
    var reading := ReadAll(CategoryFiles(vault[dir]));
    var warnings := if reading.failure.Some? then [LoadError(subfolder, reading.failure.value)] else [];
    return CategoryLoad(reading.urls, warnings, reading.readLog);
  }

  // ---------------------------------------------------------------------------
  // The store

  /** The audio module's state: the bundled pools and the two module variables. */
  class SoundStore {
    const builtins: BuiltinSounds
    var customSounds: Option<CustomSounds>
    var customSoundsPath: Option<string>

    /** Both variables are set together, to a non-empty path and to pools of data URLs. */
    ghost predicate Valid()
      reads this
    {
      (customSounds.Some? <==> customSoundsPath.Some?) &&
      (customSoundsPath.Some? ==> customSoundsPath.value != "") &&
      (customSounds.Some? ==> AllDataUrls(customSounds.value.pageFlip) && AllDataUrls(customSounds.value.newNote))
    }

    function State(): CustomState
      reads this
    {
      CustomState(customSounds, customSoundsPath)
    }

    /** The module as first evaluated: no custom sounds and no path. */
    constructor (builtins: BuiltinSounds)
      ensures Valid() && this.builtins == builtins
      ensures State() == CustomState(None, None)
    {
      this.builtins := builtins;
      customSounds := None;
      customSoundsPath := None;
    }

    /** The custom pool a request for `pool` consults: every pool but "page-flip" uses the new-note one. */
    function CustomPool(pool: SoundPool): seq<string>
      reads this
      requires customSounds.Some?
    {
      if pool == PageFlip then customSounds.value.pageFlip else customSounds.value.newNote
    }

    /** The built-in pool a request for `pool` falls back to, by the same rule. */
    function BuiltinPool(pool: SoundPool): seq<string>
    {
      if pool == PageFlip then builtins.pageFlip else builtins.newNote
    }

    /** The custom pool is used only when the custom set exists and its pool is non-empty. */
    predicate HasCustomPool(pool: SoundPool)
      reads this
    {
      customSounds.Some? && |CustomPool(pool)| > 0
    }

    /**
     * `getSoundUrl`: a custom sound when the custom pool is usable, otherwise a
     * data URL around a built-in sound; nothing only when the built-in pool is
     * empty or the drawn built-in entry is the empty string.
     */
    function GetSoundUrl(pool: SoundPool, rnd: real): (r: Option<string>)
      reads this
      requires Valid() && 0.0 <= rnd < 1.0
      ensures r.Some? ==> IsOggDataUrl(r.value)
      ensures HasCustomPool(pool) ==> r.Some? && r.value in CustomPool(pool)
      ensures !HasCustomPool(pool) ==>
        (r.None? <==> |BuiltinPool(pool)| == 0 || PickRandom(BuiltinPool(pool), rnd) == Some(""))
      ensures !HasCustomPool(pool) && r.Some? ==> DataUrlPayload(r.value) in BuiltinPool(pool)
    {
      if pool == PageFlip then
        if customSounds.Some? && |customSounds.value.pageFlip| > 0 then
          PickRandom(customSounds.value.pageFlip, rnd)
        else
          var base64 := PickRandom(builtins.pageFlip, rnd);
          if base64.Some? && base64.value != "" then Some(Base64ToDataUrl(base64.value)) else None
      else
        if customSounds.Some? && |customSounds.value.newNote| > 0 then
          PickRandom(customSounds.value.newNote, rnd)
        else
          var base64 := PickRandom(builtins.newNote, rnd);
          if base64.Some? && base64.value != "" then Some(Base64ToDataUrl(base64.value)) else None
    }

    /**
     * `playSound`: a playback of the resolved URL at the volume clamped to
     * [0, 1], or nothing when no URL resolves.
     */
    function PlaySound(pool: SoundPool, volume: real, rnd: real): (p: Option<Playback>)
      reads this
      requires Valid() && 0.0 <= rnd < 1.0
      ensures p.Some? <==> GetSoundUrl(pool, rnd).Some?
      ensures p.Some? ==> p.value.url == GetSoundUrl(pool, rnd).value
      ensures p.Some? ==> p.value.volume == Clamp01(volume)
    {
      var url := GetSoundUrl(pool, rnd);
      if url.None? || url.value == "" then None
      else Some(Playback(url.value, Clamp01(volume)))
    }

    /**
     * `loadCustomSounds`, with the vault as a value: the new state and the
     * warnings are those of `LoadCustomSoundsSpec`, and a notice is raised
     * exactly when there are warnings.
     */
    method LoadCustomSounds(vault: Vault, folderPath: string)
      returns (warnings: seq<string>, notice: Option<string>, readLog: seq<string>)
      requires Valid()
      modifies this
      ensures Valid()
      ensures var out := LoadCustomSoundsSpec(old(State()), vault, folderPath);
        State() == out.state && warnings == out.warnings && readLog == out.readLog
      ensures notice == if |warnings| > 0 then Some(NoticeText(warnings)) else None
    {
      if folderPath == "" {
        customSounds := None;
        customSoundsPath := None;
        return [], None, [];
      }
      if Some(folderPath) == customSoundsPath && customSounds.Some? {
        return [], None, [];
      }
      var pageFlip := LoadCategory(vault, folderPath, "page-flip");
      var newNote := LoadCategory(vault, folderPath, "new-note");
      warnings := pageFlip.warnings + newNote.warnings;
      readLog := pageFlip.readLog + newNote.readLog;
      notice := if |warnings| > 0 then Some(NoticeText(warnings)) else None;
      customSounds := Some(CustomSounds(pageFlip.urls, newNote.urls));
      customSoundsPath := Some(folderPath);
    }

    /** `clearCustomSounds`: both variables become null. */
    method ClearCustomSounds()
      modifies this
      ensures Valid()
      ensures State() == CustomState(None, None)
    {
      customSounds := None;
      customSoundsPath := None;
    }
  }

  /** `Math.max(0, Math.min(1, volume))`. */
  function Clamp01(volume: real): (r: real)
    ensures 0.0 <= r <= 1.0
    ensures 0.0 <= volume <= 1.0 ==> r == volume
    ensures volume < 0.0 ==> r == 0.0
    ensures volume > 1.0 ==> r == 1.0
  {
    if volume < 0.0 then 0.0 else if volume > 1.0 then 1.0 else volume
  }

  /** A request for "checkbox" resolves exactly as one for "new-note". */
  lemma CheckboxResolvesAsNewNote(store: SoundStore, rnd: real)
    requires store.Valid() && 0.0 <= rnd < 1.0
    ensures store.GetSoundUrl(Checkbox, rnd) == store.GetSoundUrl(NewNote, rnd)
  {
  }
}

/**
 * `RenderService`: the assembly chain that turns rendered scenes into the final video.
 * It makes one clip per scene, concatenates them, burns in subtitles, mixes in
 * background music, optimises the result, cuts a thumbnail, reads the metadata,
 * uploads the video and the thumbnail, and always sweeps the job's temporary files.
 *
 * The working directory is `root`. The encoder (`exec`), the prober (`ffprobe`) and the
 * object store (`put`, `endpoint`, `bucket`) are the outside world, given to the service.
 * Times are whole milliseconds.
 */
module RenderService {
  import opened Wrappers
  import opened JsText
  import opened Environment
  import opened FfmpegCommands
  import SubtitleCues

  // ---------------------------------------------------------------------------
  // Directories and file names

  function TempDir(root: string): string { PathJoin(root, "temp") }
  function ScenesDir(root: string): string { PathJoin(TempDir(root), "scenes") }
  function FinalDir(root: string): string { PathJoin(TempDir(root), "final") }
  function AssetsDir(root: string): string { PathJoin(root, "assets") }
  function MusicDir(root: string): string { PathJoin(AssetsDir(root), "music") }

  /** The directories `ensureDirectories` creates, in its order. */
  function RequiredDirs(root: string): seq<string> {
    [TempDir(root), ScenesDir(root), FinalDir(root), AssetsDir(root), MusicDir(root)]
  }

  /** `path.join(dir, `${jobId}_${suffix}`)`: a per-job file. */
  function JobFile(dir: string, jobId: string, suffix: string): string {
    PathJoin(dir, jobId + "_" + suffix)
  }

  function SceneClipPath(root: string, jobId: string, i: nat): string {
    JobFile(ScenesDir(root), jobId, "scene_" + NatToString(i) + ".mp4")
  }

  /** The clip paths of the first `n` scenes, in index order. */
  function ScenePaths(root: string, jobId: string, n: nat): seq<string> {
    if n == 0 then [] else ScenePaths(root, jobId, n - 1) + [SceneClipPath(root, jobId, n - 1)]
  }

  /** There is one clip path per scene, and the `k`-th is scene `k`'s. */
  lemma {:induction false} ScenePathsAt(root: string, jobId: string, n: nat, k: nat)
    requires k < n
    ensures |ScenePaths(root, jobId, n)| == n && ScenePaths(root, jobId, n)[k] == SceneClipPath(root, jobId, k)
  {
    if k < n - 1 {
      ScenePathsAt(root, jobId, n - 1, k);
    } else if n > 1 {
      ScenePathsAt(root, jobId, n - 1, 0);
    }
  }

  function ConcatPath(root: string, jobId: string): string { JobFile(FinalDir(root), jobId, "concat.mp4") }
  function ListPath(root: string, jobId: string): string { JobFile(FinalDir(root), jobId, "list.txt") }
  function SrtPath(root: string, jobId: string): string { JobFile(FinalDir(root), jobId, "subtitles.srt") }
  function SubtitledPath(root: string, jobId: string): string { JobFile(FinalDir(root), jobId, "subtitled.mp4") }
  function WithMusicPath(root: string, jobId: string): string { JobFile(FinalDir(root), jobId, "with_music.mp4") }
  function OptimizedPath(root: string, jobId: string): string { JobFile(FinalDir(root), jobId, "optimized.mp4") }
  function ThumbPath(root: string, jobId: string): string { JobFile(FinalDir(root), jobId, "thumb.jpg") }

  /** The object keys of the uploads. */
  function VideoKey(jobId: string): string { "videos/" + jobId + "/" + jobId + "_final.mp4" }
  function ThumbKey(jobId: string): string { "videos/" + jobId + "/" + jobId + "_thumb.jpg" }

  /** A job id the file names can hold as one path component, with no glob star. */
  predicate Plain(jobId: string) {
    '/' !in jobId && '*' !in jobId
  }

  // ---------------------------------------------------------------------------
  // Cleanup

  /** A file directly inside `dir` whose name starts with `prefix`. */
  predicate Marked(p: string, dir: string, prefix: string) {
    ChildOf(p, dir) && StartsWith(ChildName(p, dir), prefix)
  }

  /** The files left once every marked file of `dir` is unlinked. */
  function Swept(files: map<string, FileData>, dir: string, prefix: string): map<string, FileData> {
    map p | p in files && !Marked(p, dir, prefix) :: files[p]
  }

  /** The files left once the marked files whose names are in `done` are unlinked. */
  function SweptListed(files: map<string, FileData>, dir: string, prefix: string, done: seq<string>): map<string, FileData> {
    map p | p in files && !(Marked(p, dir, prefix) && ChildName(p, dir) in done) :: files[p]
  }

  /** The two glob patterns `cleanup` walks. */
  function CleanupPatterns(root: string, jobId: string): (ps: seq<string>)
    ensures |ps| == 2 && forall k :: 0 <= k < 2 ==> '/' in ps[k]
  {
    var a := PathJoin(ScenesDir(root), jobId + "_*");
    var b := PathJoin(FinalDir(root), jobId + "_*");
    assert a[|ScenesDir(root)|] == '/' && b[|FinalDir(root)|] == '/';
    [a, b]
  }

  /** The prefix a pattern's files are matched by: its base name with the first `*`, then the first `_*`, removed. */
  function PatternPrefix(pattern: string): string
    requires '/' in pattern
  {
    ReplaceFirst(ReplaceFirst(Basename(pattern), "*", ""), "_*", "")
  }

  /**
   * The files after `cleanup` walks `patterns`: a pattern whose directory exists is swept;
   * one whose directory is a plain file makes `readdirSync` throw, and the catch around
   * the whole walk ends it there; a missing directory is skipped.
   */
  function CleanedUp(files: map<string, FileData>, dirs: set<string>, patterns: seq<string>): map<string, FileData>
    requires forall k :: 0 <= k < |patterns| ==> '/' in patterns[k]
  {
    if patterns == [] then files
    else
      var dir := Dirname(patterns[0]);
      if dir in dirs then CleanedUp(Swept(files, dir, PatternPrefix(patterns[0])), dirs, patterns[1..])
      else if dir in files then files
      else CleanedUp(files, dirs, patterns[1..])
  }

  /** A temporary file of the job: in the scenes or the final directory, named `${jobId}_…`. */
  predicate JobTemp(p: string, root: string, jobId: string) {
    Marked(p, ScenesDir(root), jobId + "_") || Marked(p, FinalDir(root), jobId + "_")
  }

  /** Every file that is not a temporary file of the job. */
  function Outside(files: map<string, FileData>, root: string, jobId: string): map<string, FileData> {
    map p | p in files && !JobTemp(p, root, jobId) :: files[p]
  }

  /** For a plain job id, a pattern names its directory and matches by `${jobId}_`. */
  lemma PlainPattern(dir: string, jobId: string)
    requires Plain(jobId)
    ensures '/' in PathJoin(dir, jobId + "_*")
    ensures Dirname(PathJoin(dir, jobId + "_*")) == dir
    ensures PatternPrefix(PathJoin(dir, jobId + "_*")) == jobId + "_"
  {
    var name := jobId + "_*";
    assert '/' !in name by {
      assert forall k :: 0 <= k < |name| ==> name[k] == if k < |jobId| then jobId[k] else "_*"[k - |jobId|];
    }
    SplitJoined(dir, name);
    assert name == (jobId + "_") + ['*'] + "";
    ReplaceFirstAt(jobId + "_", '*', "", "");
    assert (jobId + "_") + "" + "" == jobId + "_";
    assert '*' !in jobId + "_" by {
      assert forall k :: 0 <= k < |jobId| + 1 ==> (jobId + "_")[k] == if k < |jobId| then jobId[k] else '_';
    }
    ReplaceFirstAbsent(jobId + "_", "_*", "");
  }

  /**
   * With both directories present, `cleanup` of a plain job id removes exactly the job's
   * temporary files and keeps every other file with its contents.
   */
  lemma CleanupRemovesJobFiles(files: map<string, FileData>, dirs: set<string>, root: string, jobId: string)
    requires Plain(jobId) && ScenesDir(root) in dirs && FinalDir(root) in dirs
    ensures CleanedUp(files, dirs, CleanupPatterns(root, jobId)) == Outside(files, root, jobId)
  {
    var ps := CleanupPatterns(root, jobId);
    PlainPattern(ScenesDir(root), jobId);
    PlainPattern(FinalDir(root), jobId);
    var once := Swept(files, ScenesDir(root), jobId + "_");
    CleanedUpSweeps(files, dirs, ps, ScenesDir(root), jobId + "_");
    CleanedUpSweeps(once, dirs, ps[1..], FinalDir(root), jobId + "_");
    assert ps[1..][1..] == [];
    SweptBoth(files, root, jobId);
  }

  /** The walk over a pattern whose directory exists: sweep it, then walk the rest. */
  lemma CleanedUpSweeps(files: map<string, FileData>, dirs: set<string>, patterns: seq<string>, dir: string, prefix: string)
    requires |patterns| >= 1 && forall k :: 0 <= k < |patterns| ==> '/' in patterns[k]
    requires Dirname(patterns[0]) == dir && dir in dirs && PatternPrefix(patterns[0]) == prefix
    ensures CleanedUp(files, dirs, patterns) == CleanedUp(Swept(files, dir, prefix), dirs, patterns[1..])
  {
  }

  /** Sweeping the scenes, then the final directory, by `${jobId}_` keeps exactly the files outside the job. */
  lemma SweptBoth(files: map<string, FileData>, root: string, jobId: string)
    ensures Swept(Swept(files, ScenesDir(root), jobId + "_"), FinalDir(root), jobId + "_") == Outside(files, root, jobId)
  {
  }

  /** The inputs under `temp/images` and `temp/audio` are never temporary files of a job. */
  lemma InputsAreNotJobTemp(p: string, root: string, jobId: string)
    requires StartsWith(p, TempDir(root) + "/images/") || StartsWith(p, TempDir(root) + "/audio/")
    ensures !JobTemp(p, root, jobId)
  {
    var t := |TempDir(root)|;
    assert (TempDir(root) + "/images/")[t + 1] == 'i';
    assert (TempDir(root) + "/audio/")[t + 1] == 'a';
    assert (ScenesDir(root) + "/")[t + 1] == 's';
    assert (FinalDir(root) + "/")[t + 1] == 'f';
    assert p[t + 1] == 'i' || p[t + 1] == 'a';
  }

  /** A per-job file of the scenes or final directory, for a plain id and name, is a temporary file of the job. */
  lemma JobFileIsTemp(dir: string, root: string, jobId: string, suffix: string)
    requires Plain(jobId) && '/' !in suffix && (dir == ScenesDir(root) || dir == FinalDir(root))
    ensures JobTemp(JobFile(dir, jobId, suffix), root, jobId)
  {
    var name := jobId + "_" + suffix;
    assert '/' !in name by {
      assert forall k :: 0 <= k < |name| ==> name[k] == if k < |jobId| + 1 then (jobId + "_")[k] else suffix[k - |jobId| - 1];
      assert forall k :: 0 <= k < |jobId| + 1 ==> (jobId + "_")[k] == if k < |jobId| then jobId[k] else '_';
    }
    JoinIsChild(dir, name);
    assert name[..|jobId| + 1] == jobId + "_";
  }

  /** Two per-job files of one directory with different suffixes are different files. */
  lemma JobFilesDiffer(dir: string, jobId: string, a: string, b: string)
    requires a != b
    ensures JobFile(dir, jobId, a) != JobFile(dir, jobId, b)
  {
    var base := dir + "/" + (jobId + "_");
    assert JobFile(dir, jobId, a) == base + a && JobFile(dir, jobId, b) == base + b;
    AppendSlices(base, a);
    AppendSlices(base, b);
  }

  /** Writing a temporary file of the job changes nothing outside the job's files. */
  lemma OutsideWrite(files: map<string, FileData>, root: string, jobId: string, p: string, data: FileData)
    requires JobTemp(p, root, jobId)
    ensures Outside(files[p := data], root, jobId) == Outside(files, root, jobId)
  {
  }

  /** Removing a temporary file of the job changes nothing outside the job's files. */
  lemma OutsideRemove(files: map<string, FileData>, root: string, jobId: string, p: string)
    requires JobTemp(p, root, jobId)
    ensures Outside(files - {p}, root, jobId) == Outside(files, root, jobId)
  {
  }

  /** Two disks that differ only at temporary files of the job have the same outside. */
  lemma SameOutside(files: map<string, FileData>, other: map<string, FileData>, changed: set<string>, root: string, jobId: string)
    requires forall p :: p in changed ==> JobTemp(p, root, jobId)
    requires forall p :: p !in changed ==> (p in files <==> p in other)
    requires forall p :: p !in changed && p in files ==> files[p] == other[p]
    ensures Outside(files, root, jobId) == Outside(other, root, jobId)
  {
  }

  /** The per-job file names of the final directory hold no separator. */
  lemma FinalNamesPlain()
    ensures '/' !in "concat.mp4" && '/' !in "list.txt" && '/' !in "subtitles.srt" && '/' !in "subtitled.mp4"
    ensures '/' !in "with_music.mp4" && '/' !in "optimized.mp4" && '/' !in "thumb.jpg"
  {
    StageNamesPlain();
  }

  lemma StageNamesPlain()
    ensures '/' !in "subtitles.srt" && '/' !in "subtitled.mp4" && '/' !in "with_music.mp4"
  {
  }

  /** A clip's file name holds no separator. */
  lemma SceneSuffixPlain(i: nat)
    ensures '/' !in "scene_" + NatToString(i) + ".mp4"
  {
    var d := NatToString(i);
    var s := "scene_" + d + ".mp4";
    assert forall k :: 0 <= k < |s| ==> s[k] == if k < 6 then "scene_"[k] else if k < 6 + |d| then d[k - 6] else ".mp4"[k - 6 - |d|];
  }

  /** One listed name swept: a marked name removes its file, any other name nothing. */
  lemma SweptListedStep(files: map<string, FileData>, dir: string, prefix: string, done: seq<string>, n: string)
    requires '/' !in n
    ensures SweptListed(files, dir, prefix, done + [n]) ==
            if StartsWith(n, prefix) then SweptListed(files, dir, prefix, done) - {PathJoin(dir, n)}
            else SweptListed(files, dir, prefix, done)
  {
    JoinIsChild(dir, n);
    forall p | p in files && ChildOf(p, dir)
      ensures ChildName(p, dir) == n <==> p == PathJoin(dir, n)
    {
    }
  }

  /** Once every name of the directory is done, the listed sweep is the whole sweep. */
  lemma SweptListedAll(files: map<string, FileData>, dir: string, prefix: string, names: seq<string>)
    requires forall p :: p in files && ChildOf(p, dir) ==> ChildName(p, dir) in names
    ensures SweptListed(files, dir, prefix, names) == Swept(files, dir, prefix)
  {
  }

  // ---------------------------------------------------------------------------
  // Subtitles

  /** A scene as the renderer gets it: its image, its narration, its text and its duration (0 when unknown). */
  datatype RenderScene = RenderScene(imagePath: string, audioPath: string, text: string, duration: nat)

  /** `scene.duration || 3.0`: a falsy duration counts as three seconds. */
  function CueDuration(scene: RenderScene): (d: nat)
    ensures d > 0
    ensures scene.duration != 0 ==> d == scene.duration
    ensures scene.duration == 0 ==> d == 3000
  {
    if scene.duration == 0 then 3000 else scene.duration
  }

  /** Where cue `i` starts: the sum of the durations of the scenes before it. */
  function CueStart(scenes: seq<RenderScene>, i: nat): nat
    requires i <= |scenes|
  {
    if i == 0 then 0 else CueStart(scenes, i - 1) + CueDuration(scenes[i - 1])
  }

  /**
   * An entry writer: text, zero-based index, start and duration to SRT entry. The fold is
   * stated for any writer; the service uses `generateSubtitleEntry`, that is `SubtitleCues.Cue`.
   */
  type CueWriter = (string, nat, nat, nat) -> string

  /** The entry `cue` writes for scene `i`. */
  function SceneCue(scenes: seq<RenderScene>, i: nat, cue: CueWriter): string
    requires i < |scenes|
  {
    cue(scenes[i].text, i, CueStart(scenes, i), CueDuration(scenes[i]))
  }

  /** The SRT text for the first `n` scenes: each entry followed by a blank line. */
  function SrtText(scenes: seq<RenderScene>, n: nat, cue: CueWriter): string
    requires n <= |scenes|
  {
    if n == 0 then "" else SrtText(scenes, n - 1, cue) + SceneCue(scenes, n - 1, cue) + "\n"
  }

  /** The fold of `addSubtitlesToVideo`: append each entry and a newline, advancing the clock by the scene's duration. */
  method BuildSrt(scenes: seq<RenderScene>, cue: CueWriter) returns (content: string)
    ensures content == SrtText(scenes, |scenes|, cue)
  {
    content := "";
    var currentTime := 0;
    var i := 0;
    while i < |scenes|
      invariant 0 <= i <= |scenes|
      invariant content == SrtText(scenes, i, cue) && currentTime == CueStart(scenes, i)
    {
      var duration := CueDuration(scenes[i]);
      content := content + cue(scenes[i].text, i, currentTime, duration);
      content := content + "\n";
      currentTime := currentTime + duration;
      i := i + 1;
    }
  }

  /**
   * Cue `i` reads back as number `i`, running from the sum of the earlier durations to the
   * sum including its own, with the scene's text: the cues tile the timeline in order.
   */
  lemma SceneCueFields(scenes: seq<RenderScene>, i: nat)
    requires i < |scenes| && '\n' !in scenes[i].text && CueStart(scenes, i + 1) < 360000000
    ensures SubtitleCues.ParseCue(SceneCue(scenes, i, SubtitleCues.Cue)) ==
            Some(SubtitleCues.CueFields(i, CueStart(scenes, i), CueStart(scenes, i + 1), scenes[i].text))
  {
    SubtitleCues.CueRoundTrip(scenes[i].text, i, CueStart(scenes, i), CueDuration(scenes[i]));
  }

  /** The SRT text for `n` scenes is the text for `n - 1` followed by entry `n - 1` and its blank line. */
  lemma SrtTextSnoc(scenes: seq<RenderScene>, n: nat, cue: CueWriter)
    requires 0 < n <= |scenes|
    ensures SrtText(scenes, n, cue) == SrtText(scenes, n - 1, cue) + (SceneCue(scenes, n - 1, cue) + "\n")
  {
    AppendAssoc(SrtText(scenes, n - 1, cue), SceneCue(scenes, n - 1, cue), "\n");
  }

  /** Entry `i` of the SRT text sits right after the entries before it, followed by its blank line. */
  lemma {:induction false} SrtEntryAt(scenes: seq<RenderScene>, i: nat, n: nat, cue: CueWriter)
    requires i < n <= |scenes|
    ensures |SrtText(scenes, i + 1, cue)| <= |SrtText(scenes, n, cue)|
    ensures SrtText(scenes, n, cue)[|SrtText(scenes, i, cue)|..|SrtText(scenes, i + 1, cue)|] == SceneCue(scenes, i, cue) + "\n"
  {
    SrtTextSnoc(scenes, n, cue);
    var prev := SrtText(scenes, n - 1, cue);
    var e := SceneCue(scenes, n - 1, cue) + "\n";
    AppendSlices(prev, e);
    if n == i + 1 {
      assert SrtText(scenes, n, cue)[|prev|..|SrtText(scenes, n, cue)|] == e;
    } else {
      SrtEntryAt(scenes, i, n - 1, cue);
      SliceOfPrefix(prev, e, |SrtText(scenes, i, cue)|, |SrtText(scenes, i + 1, cue)|);
    }
  }

  /** Cue starts strictly increase: no two cues start together and none runs backwards. */
  lemma {:induction false} CueStartsIncrease(scenes: seq<RenderScene>, i: nat, j: nat)
    requires i < j <= |scenes|
    ensures CueStart(scenes, i) + CueDuration(scenes[i]) <= CueStart(scenes, j)
  {
    if j > i + 1 {
      CueStartsIncrease(scenes, i, j - 1);
    }
  }

  /** Durations of 3.0, 4.5 and 2.0 seconds give starts 0, 3.0 and 7.5 and ends 3.0, 7.5 and 9.5. */
  lemma CueStartsExample(scenes: seq<RenderScene>)
    requires |scenes| == 3 && scenes[0].duration == 3000 && scenes[1].duration == 4500 && scenes[2].duration == 2000
    ensures CueStart(scenes, 0) == 0 && CueStart(scenes, 1) == 3000 && CueStart(scenes, 2) == 7500
    ensures CueStart(scenes, 1) == 3000 && CueStart(scenes, 2) == 7500 && CueStart(scenes, 3) == 9500
  {
  }

  /** A scene without a duration still takes three seconds of the timeline. */
  lemma FalsyDurationExample(scenes: seq<RenderScene>)
    requires |scenes| == 2 && scenes[0].duration == 0 && scenes[1].duration == 2000
    ensures CueStart(scenes, 1) == 3000 && CueStart(scenes, 2) == 5000
  {
  }

  // ---------------------------------------------------------------------------
  // Music

  /** `names.filter(f => f.endsWith('.mp3'))`: the listed tracks, in listing order. */
  function Mp3Files(names: seq<string>): (tracks: seq<string>)
    ensures forall n :: n in tracks <==> n in names && EndsWith(n, ".mp3")
    ensures |tracks| <= |names|
  {
    if names == [] then []
    else (if EndsWith(names[0], ".mp3") then [names[0]] else []) + Mp3Files(names[1..])
  }

  // ---------------------------------------------------------------------------
  // Rendering

  /** `renderVideo`'s options; an absent field is `None`. */
  datatype RenderOptions = RenderOptions(jobId: Option<string>, subtitlesEnabled: Option<bool>, musicEnabled: Option<bool>)

  /** What `renderVideo` returns: the two URLs, the video's key and its metadata. */
  datatype RenderInfo = RenderInfo(
    videoUrl: string, videoKey: string, thumbnailUrl: string,
    duration: Option<nat>, fileSize: Option<nat>, resolution: string, totalScenes: nat)

  /** `options.jobId || uuidv4()`: an absent or empty id is replaced by the fresh `uuid`. */
  function JobIdOf(options: RenderOptions, uuid: string): string {
    if options.jobId.Some? && options.jobId.value != "" then options.jobId.value else uuid
  }

  /** A stage is on unless its option is exactly `false`. */
  function Enabled(option: Option<bool>): bool {
    option != Some(false)
  }

  /** The stages of a render in the order they run; cleanup follows them on every path. */
  datatype Stage = SceneClips | Concatenation | Subtitles | Music | Optimization | Thumbnailing | Probing | VideoUpload | ThumbnailUpload

  /** The assembly stages, in order: clips, concatenation, then subtitles and music when enabled. */
  function AssemblyPlan(subtitles: bool, music: bool): seq<Stage> {
    [SceneClips, Concatenation] + (if subtitles then [Subtitles] else []) + (if music then [Music] else [])
  }

  /** The stages after the join: subtitles and music, each when enabled. */
  function DressPlan(subtitles: bool, music: bool): seq<Stage> {
    (if subtitles then [Subtitles] else []) + (if music then [Music] else [])
  }

  /** The assembly is the join followed by the dressing stages. */
  lemma PlanSplit(subtitles: bool, music: bool)
    ensures AssemblyPlan(subtitles, music) == [SceneClips, Concatenation] + DressPlan(subtitles, music)
  {
  }

  /** The publishing stages, in order. */
  function PublishPlan(): seq<Stage> {
    [Optimization, Thumbnailing, Probing, VideoUpload, ThumbnailUpload]
  }

  /** `${width}x${height}`. */
  function Resolution(m: VideoMetadata): string {
    NatToString(m.width) + "x" + NatToString(m.height)
  }

  // ---------------------------------------------------------------------------
  // The service

  class RenderService {
    const root: string
    const fs: FileSystem
    const exec: Command -> ExecResult
    const ffprobe: Command -> Option<ProbeData>
    const put: (string, FileData) -> Outcome
    const endpoint: string
    const bucket: string

    /** Creating the service runs `ensureDirectories`: each required path that does not exist is made a directory. */
    constructor (root: string, fs: FileSystem, exec: Command -> ExecResult, ffprobe: Command -> Option<ProbeData>,
                 put: (string, FileData) -> Outcome, endpoint: string, bucket: string)
      modifies fs
      ensures this.root == root && this.fs == fs && this.exec == exec && this.ffprobe == ffprobe
      ensures this.put == put && this.endpoint == endpoint && this.bucket == bucket
      ensures fs.files == old(fs.files)
      ensures fs.dirs == old(fs.dirs) + (set d | d in RequiredDirs(root) && d !in old(fs.files))
      ensures forall k :: 0 <= k < 5 ==> RequiredDirs(root)[k] in fs.dirs || RequiredDirs(root)[k] in fs.files
    {
      this.root := root;
      this.fs := fs;
      this.exec := exec;
      this.ffprobe := ffprobe;
      this.put := put;
      this.endpoint := endpoint;
      this.bucket := bucket;
      new;
      var required := RequiredDirs(root);
      var i := 0;
      while i < |required|
        invariant 0 <= i <= |required|
        invariant fs.files == old(fs.files)
        invariant fs.dirs == old(fs.dirs) + (set d | d in required[..i] && d !in old(fs.files))
      {
        if !fs.Exists(required[i]) {
          fs.MakeDir(required[i]);
        }
        assert required[..i + 1] == required[..i] + [required[i]];
        i := i + 1;
      }
      assert required[..i] == required;
    }

    /** The walk of one existing directory: unlink every listed file whose name starts with `prefix`. */
    method SweepDir(dir: string, prefix: string)
      requires dir in fs.dirs
      modifies fs
      ensures fs.files == Swept(old(fs.files), dir, prefix) && fs.dirs == old(fs.dirs)
    {
      var names := fs.ReadDir(dir);
      ghost var start := fs.files;
      forall p | p in start && ChildOf(p, dir)
        ensures ChildName(p, dir) in names
      {
        fs.ChildListed(dir, p);
      }
      var i := 0;
      while i < |names|
        invariant 0 <= i <= |names|
        invariant fs.files == SweptListed(start, dir, prefix, names[..i]) && fs.dirs == old(fs.dirs)
      {
        SweepName(dir, prefix, names, i, start);
        i := i + 1;
      }
      assert names[..i] == names;
      SweptListedAll(start, dir, prefix, names);
    }

    /** One name of the listing: a failing `unlinkSync` (a sub-directory) is caught and skipped. */
    method SweepName(dir: string, prefix: string, names: seq<string>, i: nat, ghost start: map<string, FileData>)
      requires i < |names| && forall k :: 0 <= k < |names| ==> '/' !in names[k]
      requires fs.files == SweptListed(start, dir, prefix, names[..i])
      modifies fs
      ensures fs.files == SweptListed(start, dir, prefix, names[..i + 1]) && fs.dirs == old(fs.dirs)
    {
      assert names[..i + 1] == names[..i] + [names[i]];
      SweptListedStep(start, dir, prefix, names[..i], names[i]);
      if StartsWith(names[i], prefix) {
        var _ := fs.Unlink(PathJoin(dir, names[i]));
      }
    }

    /**
     * `cleanup(jobId)`: walk both patterns, sweeping each existing directory. It never
     * fails; what it removes is `CleanedUp` (see `CleanupRemovesJobFiles`).
     */
    method Cleanup(jobId: string)
      modifies fs
      ensures fs.files == CleanedUp(old(fs.files), old(fs.dirs), CleanupPatterns(root, jobId))
      ensures fs.dirs == old(fs.dirs)
    {
      var patterns := CleanupPatterns(root, jobId);
      var i := 0;
      while i < |patterns|
        invariant 0 <= i <= |patterns| && fs.dirs == old(fs.dirs)
        invariant CleanedUp(fs.files, fs.dirs, patterns[i..]) == CleanedUp(old(fs.files), old(fs.dirs), patterns)
      {
        var dir := Dirname(patterns[i]);
        assert patterns[i..][0] == patterns[i] && patterns[i..][1..] == patterns[i + 1..];
        if dir in fs.dirs {
          SweepDir(dir, PatternPrefix(patterns[i]));
        } else if dir in fs.files {
          break;
        }
        i := i + 1;
      }
    }
  
    // -------------------------------------------------------------------------
    // Scene clips and concatenation

    /** The encoder command for scene `i`'s clip. */
    function SceneCommand(scenes: seq<RenderScene>, jobId: string, i: nat): Command
      requires i < |scenes|
    {
      SceneClip(scenes[i].imagePath, scenes[i].audioPath, SceneClipPath(root, jobId, i))
    }

    /** The clips of the first `n` scenes all render. */
    predicate ClipsRan(scenes: seq<RenderScene>, jobId: string, n: nat)
      requires n <= |scenes|
    {
      forall k :: 0 <= k < n ==> exec(SceneCommand(scenes, jobId, k)).Ran?
    }

    /** The disk once the clips of the first `n` scenes are written. */
    function WithClips(files: map<string, FileData>, scenes: seq<RenderScene>, jobId: string, n: nat): map<string, FileData>
      requires n <= |scenes| && ClipsRan(scenes, jobId, n)
    {
      if n == 0 then files
      else WithClips(files, scenes, jobId, n - 1)[SceneClipPath(root, jobId, n - 1) := Binary(exec(SceneCommand(scenes, jobId, n - 1)).output)]
    }

    /** Clip `i` is the first to fail: it leaves `error` and the disk holds the clips before it. */
    predicate FirstFailedClip(before: map<string, FileData>, after: map<string, FileData>, scenes: seq<RenderScene>,
                              jobId: string, i: nat, error: string)
      requires i < |scenes|
    {
      ClipsRan(scenes, jobId, i) && exec(SceneCommand(scenes, jobId, i)).ExecFailed? &&
      error == "Scene video creation failed: " + exec(SceneCommand(scenes, jobId, i)).message &&
      after == WithClips(before, scenes, jobId, i)
    }

    /**
     * `createSceneVideos`: one clip per scene, in index order; the first failing clip ends
     * the loop and its error is the result. On success the paths are the clips' paths.
     */
    method CreateSceneVideos(scenes: seq<RenderScene>, jobId: string) returns (r: Result<seq<string>>)
      modifies fs
      ensures r.Ok? <==> ClipsRan(scenes, jobId, |scenes|)
      ensures r.Ok? ==> fs.files == WithClips(old(fs.files), scenes, jobId, |scenes|)
      ensures r.Ok? ==> r.value == ScenePaths(root, jobId, |scenes|)
      ensures r.Err? ==> exists i :: 0 <= i < |scenes| && FirstFailedClip(old(fs.files), fs.files, scenes, jobId, i, r.error)
      ensures fs.dirs == old(fs.dirs)
      ensures Plain(jobId) ==> Outside(fs.files, root, jobId) == Outside(old(fs.files), root, jobId)
    {
      var sceneVideos := [];
      var i := 0;
      while i < |scenes|
        invariant 0 <= i <= |scenes| && ClipsRan(scenes, jobId, i)
        invariant fs.files == WithClips(old(fs.files), scenes, jobId, i) && fs.dirs == old(fs.dirs)
        invariant sceneVideos == ScenePaths(root, jobId, i)
        invariant Plain(jobId) ==> Outside(fs.files, root, jobId) == Outside(old(fs.files), root, jobId)
      {
        var made := CreateClip(scenes, jobId, i, old(fs.files));
        if made.Err? {
          assert !exec(SceneCommand(scenes, jobId, i)).Ran?;
          r := Err(made.error);
          return;
        }
        sceneVideos := sceneVideos + [made.value];
        i := i + 1;
      }
      r := Ok(sceneVideos);
    }

    /** One turn of the loop: render clip `i` after the clips before it. */
    method CreateClip(scenes: seq<RenderScene>, jobId: string, i: nat, ghost start: map<string, FileData>)
      returns (made: Result<string>)
      requires i < |scenes| && ClipsRan(scenes, jobId, i) && fs.files == WithClips(start, scenes, jobId, i)
      modifies fs
      ensures made.Ok? ==> made.value == SceneClipPath(root, jobId, i) && ClipsRan(scenes, jobId, i + 1) &&
                           fs.files == WithClips(start, scenes, jobId, i + 1)
      ensures made.Err? ==> FirstFailedClip(start, fs.files, scenes, jobId, i, made.error)
      ensures fs.dirs == old(fs.dirs)
      ensures Plain(jobId) ==> Outside(fs.files, root, jobId) == Outside(old(fs.files), root, jobId)
    {
      made := CreateSceneVideo(fs, exec, scenes[i].imagePath, scenes[i].audioPath, SceneClipPath(root, jobId, i));
      if Plain(jobId) {
        SceneSuffixPlain(i);
        JobFileIsTemp(ScenesDir(root), root, jobId, "scene_" + NatToString(i) + ".mp4");
        SameOutside(old(fs.files), fs.files, {SceneClipPath(root, jobId, i)}, root, jobId);
      }
    }

    /**
     * `concatenateScenes`: write the list, join the clips into `${jobId}_concat.mp4`, then
     * remove the list. A failed join throws before the removal, leaving the list behind.
     */
    method ConcatenateScenes(sceneVideos: seq<string>, jobId: string) returns (r: Result<string>)
      modifies fs
      ensures var listed := old(fs.files)[ListPath(root, jobId) := Text(ConcatList(sceneVideos))];
              var run := exec(Concat(ListPath(root, jobId), ConcatPath(root, jobId)));
              (run.Ran? ==> r == Ok(ConcatPath(root, jobId)) &&
                            fs.files == listed[ConcatPath(root, jobId) := Binary(run.output)] - {ListPath(root, jobId)}) &&
              (run.ExecFailed? ==> r == Err("Video concatenation failed: " + run.message) && fs.files == listed)
      ensures fs.dirs == old(fs.dirs)
      ensures r.Ok? ==> r.value in fs.files
      ensures Plain(jobId) ==> Outside(fs.files, root, jobId) == Outside(old(fs.files), root, jobId)
    {
      var outputPath := ConcatPath(root, jobId);
      var listPath := ListPath(root, jobId);
      r := ConcatenateVideos(fs, exec, sceneVideos, outputPath, listPath);
      if r.Ok? {
        if fs.Exists(listPath) {
          var _ := fs.Unlink(listPath);
        }
      }
      JobFilesDiffer(FinalDir(root), jobId, "concat.mp4", "list.txt");
      if Plain(jobId) {
        FinalNamesPlain();
        JobFileIsTemp(FinalDir(root), root, jobId, "concat.mp4");
        JobFileIsTemp(FinalDir(root), root, jobId, "list.txt");
        SameOutside(old(fs.files), fs.files, {ConcatPath(root, jobId), ListPath(root, jobId)}, root, jobId);
      }
    }

    // -------------------------------------------------------------------------
    // Subtitles and music

    /** The encoder command that burns the job's SRT file into `videoPath`. */
    function BurnCommand(videoPath: string, jobId: string): Command {
      BurnSubtitles(videoPath, SrtPath(root, jobId), SubtitledPath(root, jobId))
    }

    /** Whether burning in succeeds on disk `files`: the command runs, or the fallback copy finds its input. */
    predicate BurnSucceeds(files: map<string, FileData>, videoPath: string, jobId: string) {
      exec(BurnCommand(videoPath, jobId)).Ran? || videoPath in files
    }

    /**
     * The disk after burning in, from disk `files` holding the SRT file: the subtitled video
     * is the command's output, or else a copy of the input; on success the SRT file is gone.
     */
    function BurnedFiles(files: map<string, FileData>, videoPath: string, jobId: string): map<string, FileData> {
      var run := exec(BurnCommand(videoPath, jobId));
      var out := SubtitledPath(root, jobId);
      if run.Ran? then files[out := Binary(run.output)] - {SrtPath(root, jobId)}
      else if videoPath in files then files[out := files[videoPath]] - {SrtPath(root, jobId)}
      else files
    }

    /**
     * `addSubtitlesToVideo`: write the SRT text to `${jobId}_subtitles.srt`, burn it into
     * `${jobId}_subtitled.mp4` (a pass-through stage), then remove the SRT file. A failing
     * stage throws before the removal.
     */
    method AddSubtitlesToVideo(scenes: seq<RenderScene>, videoPath: string, jobId: string) returns (r: Result<string>)
      modifies fs
      ensures var written := old(fs.files)[SrtPath(root, jobId) := Text(SrtText(scenes, |scenes|, SubtitleCues.Cue))];
              fs.files == BurnedFiles(written, videoPath, jobId) &&
              (r.Ok? <==> BurnSucceeds(written, videoPath, jobId)) &&
              (r.Ok? ==> r.value == SubtitledPath(root, jobId) && r.value in fs.files)
      ensures fs.dirs == old(fs.dirs)
      ensures Plain(jobId) ==> Outside(fs.files, root, jobId) == Outside(old(fs.files), root, jobId)
    {
      var srtPath := SrtPath(root, jobId);
      var srtContent := BuildSrt(scenes, SubtitleCues.Cue);
      fs.WriteFile(srtPath, Text(srtContent));
      r := BurnSubtitleFile(videoPath, jobId);
      if Plain(jobId) {
        FinalNamesPlain();
        JobFileIsTemp(FinalDir(root), root, jobId, "subtitles.srt");
        OutsideWrite(old(fs.files), root, jobId, srtPath, Text(srtContent));
      }
    }

    /** The rest of `addSubtitlesToVideo`, once the SRT file is written. */
    method BurnSubtitleFile(videoPath: string, jobId: string) returns (r: Result<string>)
      modifies fs
      ensures fs.files == BurnedFiles(old(fs.files), videoPath, jobId)
      ensures r.Ok? <==> BurnSucceeds(old(fs.files), videoPath, jobId)
      ensures r.Ok? ==> r.value == SubtitledPath(root, jobId) && r.value in fs.files
      ensures fs.dirs == old(fs.dirs)
      ensures Plain(jobId) ==> Outside(fs.files, root, jobId) == Outside(old(fs.files), root, jobId)
    {
      var srtPath := SrtPath(root, jobId);
      var outputPath := SubtitledPath(root, jobId);
      r := AddSubtitles(fs, exec, videoPath, srtPath, outputPath);
      if r.Ok? {
        if fs.Exists(srtPath) {
          var _ := fs.Unlink(srtPath);
        }
      }
      JobFilesDiffer(FinalDir(root), jobId, "subtitled.mp4", "subtitles.srt");
      if Plain(jobId) {
        FinalNamesPlain();
        JobFileIsTemp(FinalDir(root), root, jobId, "subtitled.mp4");
        JobFileIsTemp(FinalDir(root), root, jobId, "subtitles.srt");
        SameOutside(old(fs.files), fs.files, {outputPath, srtPath}, root, jobId);
      }
    }

    /**
     * `addBackgroundMusicToVideo`: list the music directory, keep the `.mp3` names and mix
     * the one at position `pick` modulo their number (the source's random choice) into
     * `${jobId}_with_music.mp4` at volume 0.3, a pass-through stage. `chosen` is the
     * track used; with none the input path comes back unchanged. A music path that is a
     * plain file makes the listing throw.
     */
    method AddBackgroundMusicToVideo(videoPath: string, jobId: string, pick: nat)
      returns (r: Result<string>, ghost chosen: Option<string>)
      modifies fs
      ensures var music := MusicDir(root);
              music !in old(fs.dirs) ==> chosen.None? && fs.files == old(fs.files) &&
                                         (r.Ok? <==> music !in old(fs.files)) && (r.Ok? ==> r.value == videoPath)
      ensures var music := MusicDir(root);
              music in old(fs.dirs) && chosen.None? ==>
                r == Ok(videoPath) && fs.files == old(fs.files) &&
                forall n :: n in old(fs.Entries(music)) ==> !EndsWith(n, ".mp3")
      ensures var music := MusicDir(root);
              var out := WithMusicPath(root, jobId);
              chosen.Some? ==>
                music in old(fs.dirs) && chosen.value in old(fs.Entries(music)) && EndsWith(chosen.value, ".mp3") &&
                var run := exec(MixMusic(videoPath, PathJoin(music, chosen.value), out, "0.3"));
                (run.Ran? ==> r == Ok(out) && fs.files == old(fs.files)[out := Binary(run.output)]) &&
                (run.ExecFailed? && videoPath in old(fs.files) ==> r == Ok(out) && fs.files == old(fs.files)[out := old(fs.files)[videoPath]]) &&
                (run.ExecFailed? && videoPath !in old(fs.files) ==> r.Err? && fs.files == old(fs.files))
      ensures fs.dirs == old(fs.dirs)
      ensures r.Ok? && videoPath in old(fs.files) ==> r.value in fs.files
      ensures videoPath in old(fs.files) && MusicDir(root) in old(fs.dirs) ==> r.Ok?
      ensures Plain(jobId) ==> Outside(fs.files, root, jobId) == Outside(old(fs.files), root, jobId)
    {
      var musicDir := MusicDir(root);
      var musicFiles: seq<string>;
      chosen := None;
      if musicDir in fs.dirs {
        var names := fs.ReadDir(musicDir);
        musicFiles := Mp3Files(names);
      } else if musicDir in fs.files {
        r := Err("ENOTDIR: not a directory, scandir '" + musicDir + "'");
        return;
      } else {
        musicFiles := [];
      }
      if |musicFiles| == 0 {
        r := Ok(videoPath);
        return;
      }
      var musicFile := musicFiles[pick % |musicFiles|];
      chosen := Some(musicFile);
      var musicPath := PathJoin(musicDir, musicFile);
      var outputPath := WithMusicPath(root, jobId);
      r := AddBackgroundMusic(fs, exec, videoPath, musicPath, outputPath, "0.3");
      if Plain(jobId) {
        FinalNamesPlain();
        JobFileIsTemp(FinalDir(root), root, jobId, "with_music.mp4");
        SameOutside(old(fs.files), fs.files, {WithMusicPath(root, jobId)}, root, jobId);
      }
    }

    // -------------------------------------------------------------------------
    // Upload and the whole render

    /** The public URL of an uploaded key: `${endpoint}/${bucket}/${key}`. */
    function PublicUrl(key: string): string {
      endpoint + "/" + bucket + "/" + key
    }

    /**
     * `spacesClient.uploadFile`: read the file and put it under `key`. A missing file or a
     * failing put is rethrown as `Failed to upload file: …`; success gives the public URL.
     */
    method UploadFile(filePath: string, key: string) returns (r: Result<string>)
      ensures r.Ok? <==> filePath in fs.files && put(key, fs.files[filePath]).Pass?
      ensures r.Ok? ==> r.value == PublicUrl(key)
      ensures filePath !in fs.files ==> r == Err("Failed to upload file: ENOENT: no such file or directory, open '" + filePath + "'")
      ensures filePath in fs.files && put(key, fs.files[filePath]).Fail? ==>
                r == Err("Failed to upload file: " + put(key, fs.files[filePath]).error)
    {
      if filePath !in fs.files {
        r := Err("Failed to upload file: ENOENT: no such file or directory, open '" + filePath + "'");
        return;
      }
      var sent := put(key, fs.files[filePath]);
      if sent.Fail? {
        r := Err("Failed to upload file: " + sent.error);
        return;
      }
      r := Ok(PublicUrl(key));
    }

    /** The command that cuts the thumbnail of the job's optimised video. */
    function ThumbCommand(jobId: string): Command {
      Thumbnail(OptimizedPath(root, jobId), ThumbPath(root, jobId), "1")
    }

    /** Step 2's effect when the join runs: the list written, the joined video stored, the list removed. */
    function Concatenated(files: map<string, FileData>, scenes: seq<RenderScene>, jobId: string): map<string, FileData>
      requires exec(Concat(ListPath(root, jobId), ConcatPath(root, jobId))).Ran?
    {
      var listed := files[ListPath(root, jobId) := Text(ConcatList(ScenePaths(root, jobId, |scenes|)))];
      var run := exec(Concat(ListPath(root, jobId), ConcatPath(root, jobId)));
      listed[ConcatPath(root, jobId) := Binary(run.output)] - {ListPath(root, jobId)}
    }

    /** Step 3's effect: the SRT file written and burned into the concatenated video; nothing when subtitles are off. */
    function Subtitled(files: map<string, FileData>, scenes: seq<RenderScene>, jobId: string, subtitles: bool): map<string, FileData> {
      if subtitles then
        BurnedFiles(files[SrtPath(root, jobId) := Text(SrtText(scenes, |scenes|, SubtitleCues.Cue))], ConcatPath(root, jobId), jobId)
      else files
    }

    /** The file step 4 reads: the subtitled video when step 3 ran, the concatenated one otherwise. */
    function MusicInput(jobId: string, subtitles: bool): string {
      if subtitles then SubtitledPath(root, jobId) else ConcatPath(root, jobId)
    }

    /**
     * Step 4's effect: the chosen track mixed into `video` at volume 0.3, or a copy of
     * `video` when the mixer fails; nothing when no track was chosen.
     */
    function Mixed(files: map<string, FileData>, video: string, jobId: string, track: Option<string>): map<string, FileData> {
      if track.None? then files
      else
        var out := WithMusicPath(root, jobId);
        var run := exec(MixMusic(video, PathJoin(MusicDir(root), track.value), out, "0.3"));
        if run.Ran? then files[out := Binary(run.output)]
        else if video in files then files[out := files[video]]
        else files
    }

    /** The file steps 1 to 4 hand to the optimiser. */
    function AssembledPath(jobId: string, subtitles: bool, track: Option<string>): string {
      if track.Some? then WithMusicPath(root, jobId) else MusicInput(jobId, subtitles)
    }

    /** The disk once steps 1 to 4 succeed: each enabled stage applied to what the one before left. */
    function AssembledDisk(files: map<string, FileData>, scenes: seq<RenderScene>, jobId: string, subtitles: bool,
                           track: Option<string>): map<string, FileData>
      requires ClipsRan(scenes, jobId, |scenes|) && exec(Concat(ListPath(root, jobId), ConcatPath(root, jobId))).Ran?
    {
      var joined := Concatenated(WithClips(files, scenes, jobId, |scenes|), scenes, jobId);
      Mixed(Subtitled(joined, scenes, jobId, subtitles), MusicInput(jobId, subtitles), jobId, track)
    }

    /**
     * Steps 1 to 4 of `renderVideo`: clips, concatenation, then subtitles and music only
     * when enabled. It fails exactly when a clip or the concatenation fails, or the music
     * path is a plain file. On success the disk is `AssembledDisk` and the result is the
     * last enabled stage's output; `track` is the music chosen, and `begun` the stages of
     * `AssemblyPlan` begun, the last one being where a failure arose.
     */
    method Assemble(scenes: seq<RenderScene>, jobId: string, subtitles: bool, music: bool, pick: nat)
      returns (r: Result<string>, ghost track: Option<string>, ghost begun: seq<Stage>)
      modifies fs
      ensures (!music || MusicDir(root) in old(fs.dirs)) ==>
                (r.Ok? <==> ClipsRan(scenes, jobId, |scenes|) && exec(Concat(ListPath(root, jobId), ConcatPath(root, jobId))).Ran?)
      ensures r.Ok? ==> ClipsRan(scenes, jobId, |scenes|) && exec(Concat(ListPath(root, jobId), ConcatPath(root, jobId))).Ran? &&
                        r.value == AssembledPath(jobId, subtitles, track) && r.value in fs.files &&
                        fs.files == AssembledDisk(old(fs.files), scenes, jobId, subtitles, track)
      ensures !music ==> track.None?
      ensures track.Some? ==> EndsWith(track.value, ".mp3")
      ensures 1 <= |begun| && begun <= AssemblyPlan(subtitles, music)
      ensures r.Ok? ==> begun == AssemblyPlan(subtitles, music)
      ensures fs.dirs == old(fs.dirs)
      ensures Plain(jobId) ==> Outside(fs.files, root, jobId) == Outside(old(fs.files), root, jobId)
    {
      var joined;
      ghost var first;
      joined, first := Join(scenes, jobId);
      track := None;
      begun := first;
      PlanSplit(subtitles, music);
      if joined.Err? {
        r := Err(joined.error);
        PrefixExtends(first, [SceneClips, Concatenation], DressPlan(subtitles, music));
        return;
      }
      ghost var later;
      r, track, later := Dress(scenes, jobId, subtitles, music, pick);
      begun := first + later;
    }

    /**
     * Steps 1 and 2 of `renderVideo`: one clip per scene, then their concatenation. It
     * succeeds exactly when every clip and the join run, leaving `Concatenated` disk.
     */
    method Join(scenes: seq<RenderScene>, jobId: string) returns (r: Result<string>, ghost begun: seq<Stage>)
      modifies fs
      ensures r.Ok? <==> ClipsRan(scenes, jobId, |scenes|) && exec(Concat(ListPath(root, jobId), ConcatPath(root, jobId))).Ran?
      ensures r.Ok? ==> ClipsRan(scenes, jobId, |scenes|) && exec(Concat(ListPath(root, jobId), ConcatPath(root, jobId))).Ran? &&
                        r.value == ConcatPath(root, jobId) && r.value in fs.files &&
                        fs.files == Concatenated(WithClips(old(fs.files), scenes, jobId, |scenes|), scenes, jobId)
      ensures 1 <= |begun| && begun <= [SceneClips, Concatenation]
      ensures r.Ok? ==> begun == [SceneClips, Concatenation]
      ensures fs.dirs == old(fs.dirs)
      ensures Plain(jobId) ==> Outside(fs.files, root, jobId) == Outside(old(fs.files), root, jobId)
    {
      begun := [SceneClips];
      var clips := CreateSceneVideos(scenes, jobId);
      if clips.Err? {
        r := Err(clips.error);
        return;
      }
      begun := begun + [Concatenation];
      r := ConcatenateScenes(clips.value, jobId);
    }

    /**
     * Steps 3 and 4 of `renderVideo`, once the concatenated video exists: subtitles and
     * music, each only when enabled, each reading what the one before produced. Only a
     * music path that is a plain file makes it fail.
     */
    method Dress(scenes: seq<RenderScene>, jobId: string, subtitles: bool, music: bool, pick: nat)
      returns (r: Result<string>, ghost track: Option<string>, ghost begun: seq<Stage>)
      requires ConcatPath(root, jobId) in fs.files
      modifies fs
      ensures (!music || MusicDir(root) in old(fs.dirs)) ==> r.Ok?
      ensures r.Ok? ==> r.value == AssembledPath(jobId, subtitles, track) && r.value in fs.files &&
                        fs.files == Mixed(Subtitled(old(fs.files), scenes, jobId, subtitles), MusicInput(jobId, subtitles), jobId, track)
      ensures !music ==> track.None?
      ensures track.Some? ==> EndsWith(track.value, ".mp3")
      ensures begun == DressPlan(subtitles, music)
      ensures fs.dirs == old(fs.dirs)
      ensures Plain(jobId) ==> Outside(fs.files, root, jobId) == Outside(old(fs.files), root, jobId)
    {
      track := None;
      begun := [];
      var video := ConcatPath(root, jobId);
      assert DressPlan(subtitles, music) == (if subtitles then [Subtitles] else []) + (if music then [Music] else []);
      if subtitles {
        begun := [Subtitles];
        var subtitled := AddSubtitlesToVideo(scenes, video, jobId);
        // A failed burn falls back to the concatenated file, which exists.
        assert subtitled.Ok?;
        video := subtitled.value;
      }
      if music {
        begun := begun + [Music];
        var withMusic;
        withMusic, track := AddBackgroundMusicToVideo(video, jobId, pick);
        if withMusic.Err? {
          r := Err(withMusic.error);
          return;
        }
        video := withMusic.value;
      }
      r := Ok(video);
    }

    /** Whether step 5 yields a file: the encoder runs, or the copy fallback finds its input. */
    predicate OptimizeRuns(files: map<string, FileData>, video: string, jobId: string) {
      video in files || exec(Optimize(video, OptimizedPath(root, jobId))).Ran?
    }

    /** The optimised video's contents: the encoder's output, or a copy of the input when the encoder fails. */
    function OptimizedData(files: map<string, FileData>, video: string, jobId: string): FileData
      requires OptimizeRuns(files, video, jobId)
    {
      var run := exec(Optimize(video, OptimizedPath(root, jobId)));
      if run.Ran? then Binary(run.output) else files[video]
    }

    /** The thumbnail's contents: the frame the encoder cuts at one second. */
    function ThumbData(jobId: string): FileData
      requires exec(ThumbCommand(jobId)).Ran?
    {
      Binary(exec(ThumbCommand(jobId)).output)
    }

    /**
     * Steps 5 and 6 of `renderVideo`: optimise the video (keeping a copy of the input when
     * the encoder fails) and cut the thumbnail at one second, which must succeed.
     */
    method MakeArtifacts(video: string, jobId: string) returns (o: Outcome, ghost begun: seq<Stage>)
      modifies fs
      ensures o.Pass? <==> OptimizeRuns(old(fs.files), video, jobId) && exec(ThumbCommand(jobId)).Ran?
      ensures o.Pass? ==> OptimizeRuns(old(fs.files), video, jobId) &&
                          fs.files == old(fs.files)[OptimizedPath(root, jobId) := OptimizedData(old(fs.files), video, jobId)]
                                                   [ThumbPath(root, jobId) := ThumbData(jobId)]
      ensures o.Pass? ==> OptimizedPath(root, jobId) in fs.files && ThumbPath(root, jobId) in fs.files
      ensures 1 <= |begun| && begun <= [Optimization, Thumbnailing] && (o.Pass? ==> begun == [Optimization, Thumbnailing])
      ensures fs.dirs == old(fs.dirs)
      ensures Plain(jobId) ==> Outside(fs.files, root, jobId) == Outside(old(fs.files), root, jobId)
    {
      var optimizedPath := OptimizedPath(root, jobId);
      var thumbnailPath := ThumbPath(root, jobId);
      begun := [Optimization];
      var optimized := OptimizeVideo(fs, exec, video, optimizedPath);
      if Plain(jobId) {
        FinalNamesPlain();
        JobFileIsTemp(FinalDir(root), root, jobId, "optimized.mp4");
        JobFileIsTemp(FinalDir(root), root, jobId, "thumb.jpg");
        SameOutside(old(fs.files), fs.files, {optimizedPath}, root, jobId);
      }
      if optimized.Err? {
        o := Fail(optimized.error);
        return;
      }
      begun := begun + [Thumbnailing];
      ghost var before := fs.files;
      var thumbnail := CreateThumbnail(fs, exec, optimizedPath, thumbnailPath, "1");
      if Plain(jobId) {
        SameOutside(before, fs.files, {thumbnailPath}, root, jobId);
      }
      if thumbnail.Err? {
        o := Fail(thumbnail.error);
        return;
      }
      o := Pass;
    }

    /**
     * Steps 5 to 8 of `renderVideo`: the artifacts, then the probe of the optimised file
     * and the uploads of the video and the thumbnail. It succeeds exactly when both
     * artifacts are made and both puts, of the optimised video and of the thumbnail,
     * pass; the result carries the keys, the URLs and the metadata.
     */
    method Publish(video: string, jobId: string, totalScenes: nat) returns (r: Result<RenderInfo>, ghost begun: seq<Stage>)
      modifies fs
      ensures r.Ok? <==> OptimizeRuns(old(fs.files), video, jobId) && exec(ThumbCommand(jobId)).Ran? &&
                         put(VideoKey(jobId), OptimizedData(old(fs.files), video, jobId)).Pass? &&
                         put(ThumbKey(jobId), ThumbData(jobId)).Pass?
      ensures r.Ok? ==> var m := GetVideoMetadata(ffprobe, OptimizedPath(root, jobId));
                        r.value == RenderInfo(PublicUrl(VideoKey(jobId)), VideoKey(jobId), PublicUrl(ThumbKey(jobId)),
                                              m.duration, m.fileSize, Resolution(m), totalScenes)
      ensures 1 <= |begun| && begun <= PublishPlan()
      ensures r.Ok? ==> begun == PublishPlan()
      ensures fs.dirs == old(fs.dirs)
      ensures Plain(jobId) ==> Outside(fs.files, root, jobId) == Outside(old(fs.files), root, jobId)
    {
      var made;
      made, begun := MakeArtifacts(video, jobId);
      if made.Fail? {
        r := Err(made.error);
        return;
      }
      var optimizedPath := OptimizedPath(root, jobId);
      var thumbnailPath := ThumbPath(root, jobId);
      FinalNamesPlain();
      JobFilesDiffer(FinalDir(root), jobId, "optimized.mp4", "thumb.jpg");
      assert fs.files[optimizedPath] == OptimizedData(old(fs.files), video, jobId);
      assert fs.files[thumbnailPath] == ThumbData(jobId);
      begun := begun + [Probing];
      var metadata := GetVideoMetadata(ffprobe, optimizedPath);
      var videoKey := VideoKey(jobId);
      var thumbnailKey := ThumbKey(jobId);
      begun := begun + [VideoUpload];
      var videoUrl := UploadFile(optimizedPath, videoKey);
      if videoUrl.Err? {
        r := Err(videoUrl.error);
        return;
      }
      begun := begun + [ThumbnailUpload];
      var thumbnailUrl := UploadFile(thumbnailPath, thumbnailKey);
      if thumbnailUrl.Err? {
        r := Err(thumbnailUrl.error);
        return;
      }
      r := Ok(RenderInfo(videoUrl.value, videoKey, thumbnailUrl.value, metadata.duration, metadata.fileSize,
                         Resolution(metadata), totalScenes));
    }

    /**
     * `renderVideo(scenes, options)`: assemble, publish, and clean up on both paths; a
     * failure is rethrown as `Video rendering failed: …`. `uuid` is the id `uuidv4()`
     * would draw and `pick` the music choice. On success the uploaded video is the
     * optimised form of the assembled one and the uploaded thumbnail is cut from it.
     */
    method RenderVideo(scenes: seq<RenderScene>, options: RenderOptions, uuid: string, pick: nat)
      returns (r: Result<RenderInfo>, ghost track: Option<string>, ghost begun: seq<Stage>)
      modifies fs
      ensures var jobId := JobIdOf(options, uuid);
              r.Ok? ==> ClipsRan(scenes, jobId, |scenes|) && exec(Concat(ListPath(root, jobId), ConcatPath(root, jobId))).Ran? &&
                        exec(ThumbCommand(jobId)).Ran?
      ensures var jobId := JobIdOf(options, uuid);
              var subtitles := Enabled(options.subtitlesEnabled);
              r.Ok? ==> ClipsRan(scenes, jobId, |scenes|) &&
                        var disk := AssembledDisk(old(fs.files), scenes, jobId, subtitles, track);
                        var video := AssembledPath(jobId, subtitles, track);
                        OptimizeRuns(disk, video, jobId) &&
                        put(VideoKey(jobId), OptimizedData(disk, video, jobId)).Pass? &&
                        put(ThumbKey(jobId), ThumbData(jobId)).Pass?
      ensures var jobId := JobIdOf(options, uuid);
              r.Ok? ==> var m := GetVideoMetadata(ffprobe, OptimizedPath(root, jobId));
                        r.value == RenderInfo(PublicUrl(VideoKey(jobId)), VideoKey(jobId), PublicUrl(ThumbKey(jobId)),
                                              m.duration, m.fileSize, Resolution(m), |scenes|)
      ensures r.Err? ==> StartsWith(r.error, "Video rendering failed: ")
      ensures !Enabled(options.musicEnabled) ==> track.None?
      ensures var plan := AssemblyPlan(Enabled(options.subtitlesEnabled), Enabled(options.musicEnabled)) + PublishPlan();
              1 <= |begun| && begun <= plan && (r.Ok? ==> begun == plan)
      ensures fs.dirs == old(fs.dirs)
      ensures var jobId := JobIdOf(options, uuid);
              Plain(jobId) && ScenesDir(root) in old(fs.dirs) && FinalDir(root) in old(fs.dirs) ==>
                fs.files == Outside(old(fs.files), root, jobId)
    {
      var jobId := JobIdOf(options, uuid);
      var subtitles := Enabled(options.subtitlesEnabled);
      var music := Enabled(options.musicEnabled);
      var result: Result<RenderInfo>;
      var assembled;
      ghost var assembly;
      assembled, track, assembly := Assemble(scenes, jobId, subtitles, music, pick);
      if assembled.Ok? {
        var published;
        ghost var publishing;
        published, publishing := Publish(assembled.value, jobId, |scenes|);
        result := published;
        begun := assembly + publishing;
        PrefixAppend(assembly, publishing, PublishPlan());
      } else {
        result := Err(assembled.error);
        begun := assembly;
        PrefixExtends(assembly, AssemblyPlan(subtitles, music), PublishPlan());
      }
      ghost var beforeCleanup := fs.files;
      Cleanup(jobId);
      if Plain(jobId) && ScenesDir(root) in fs.dirs && FinalDir(root) in fs.dirs {
        CleanupRemovesJobFiles(beforeCleanup, fs.dirs, root, jobId);
      }
      if result.Err? {
        r := Err("Video rendering failed: " + result.error);
      } else {
        r := result;
      }
    }
  }

  /** A prefix of the first plan stays a prefix once the second plan follows it. */
  lemma PrefixExtends(begun: seq<Stage>, first: seq<Stage>, second: seq<Stage>)
    requires begun <= first
    ensures begun <= first + second
  {
    assert (first + second)[..|begun|] == first[..|begun|];
  }

  /** The whole first plan followed by a prefix of the second is a prefix of both plans. */
  lemma PrefixAppend(first: seq<Stage>, begun: seq<Stage>, second: seq<Stage>)
    requires begun <= second
    ensures first + begun <= first + second
  {
    assert (first + second)[..|first| + |begun|] == first + second[..|begun|];
  }
}

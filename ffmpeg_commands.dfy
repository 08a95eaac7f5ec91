/**
 * The ffmpeg front-end: the command line of each encoder stage, the concat-list file, the
 * `ffprobe` metadata defaulting, and what each stage does when its command fails. Running a
 * command is an oracle `exec` from the command to its outcome; a command that runs
 * leaves its output bytes at the output path.
 */
module FfmpegCommands {
  import opened Wrappers
  import opened JsText
  import opened Environment

  /**
   * The ffmpeg and ffprobe invocations. Each carries exactly what varies between calls; the
   * flags, codecs and filters are fixed and written out once, in `CommandLine`.
   */
  datatype Command =
    | SceneClip(imagePath: string, audioPath: string, outputPath: string)
    | Concat(listFilePath: string, outputPath: string)
    | BurnSubtitles(videoPath: string, subtitlePath: string, outputPath: string)
    | MixMusic(videoPath: string, musicPath: string, outputPath: string, volume: string)
    | Probe(videoPath: string)
    | Thumbnail(videoPath: string, outputPath: string, timestamp: string)
    | Optimize(inputPath: string, outputPath: string)

  /** What running one command gives: the bytes it left at its output path, or the error. */
  datatype ExecResult = Ran(output: seq<bv8>) | ExecFailed(message: string)

  const SubtitleStyle := "FontName=Arial,FontSize=24,PrimaryColour=&H00FFFFFF,OutlineColour=&H00000000,BorderStyle=3,Outline=2,Shadow=1,MarginV=50,Alignment=2"

  /**
   * The shell command text of each invocation. `volume` and `timestamp` are the decimal texts
   * of the numbers the caller passes (`0.3` and `1` by default).
   */
  function CommandLine(c: Command): string {
    match c
    case SceneClip(imagePath, audioPath, outputPath) =>
      "ffmpeg -loop 1 -i \"" + imagePath + "\" -i \"" + audioPath +
      "\" -c:v libx264 -tune stillimage -c:a aac -b:a 192k -pix_fmt yuv420p -shortest -vf \"scale=1080:1920:force_original_aspect_ratio=decrease,pad=1080:1920:(ow-iw)/2:(oh-ih)/2\" \"" +
      outputPath + "\" -y"
    case Concat(listFilePath, outputPath) =>
      "ffmpeg -f concat -safe 0 -i \"" + listFilePath + "\" -c copy \"" + outputPath + "\" -y"
    case BurnSubtitles(videoPath, subtitlePath, outputPath) =>
      "ffmpeg -i \"" + videoPath + "\" -vf \"subtitles='" + subtitlePath + "':force_style='" +
      SubtitleStyle + "'\" -c:a copy \"" + outputPath + "\" -y"
    case MixMusic(videoPath, musicPath, outputPath, volume) =>
      "ffmpeg -i \"" + videoPath + "\" -stream_loop -1 -i \"" + musicPath +
      "\" -filter_complex \"[1:a]volume=" + volume +
      ",afade=t=out:st=5:d=2[music];[0:a][music]amix=inputs=2:duration=first:dropout_transition=2[a]\" -map 0:v -map \"[a]\" -c:v copy -c:a aac -b:a 192k \"" +
      outputPath + "\" -y"
    case Probe(videoPath) =>
      "ffprobe -v error -select_streams v:0 -show_entries stream=width,height,duration -show_entries format=duration,size -of json \"" +
      videoPath + "\""
    case Thumbnail(videoPath, outputPath, timestamp) =>
      "ffmpeg -i \"" + videoPath + "\" -ss " + timestamp + " -vframes 1 -vf \"scale=540:960\" \"" + outputPath + "\" -y"
    case Optimize(inputPath, outputPath) =>
      "ffmpeg -i \"" + inputPath + "\" -c:v libx264 -preset medium -crf 23 -c:a aac -b:a 128k -movflags +faststart \"" +
      outputPath + "\" -y"
  }

  // ---------------------------------------------------------------------------
  // The concat list

  /** One line of the concat demuxer's list: the path with every `\` turned into `/`. */
  function ConcatLine(path: string): string {
    "file '" + ReplaceChar(path, '\\', '/') + "'"
  }

  function ConcatLines(paths: seq<string>): (lines: seq<string>)
    ensures |lines| == |paths|
    ensures forall k :: 0 <= k < |paths| ==> lines[k] == ConcatLine(paths[k])
  {
    seq(|paths|, k requires 0 <= k < |paths| => ConcatLine(paths[k]))
  }

  /** The list file's text: the lines joined by `\n`, with no trailing newline. */
  function ConcatList(paths: seq<string>): string {
    Join(ConcatLines(paths), "\n")
  }

  /**
   * The list holds one `file '<p>'` line per input path, in order, and no backslash; an
   * empty input gives an empty file, and a non-empty one ends with the closing quote.
   */
  lemma ConcatListLines(paths: seq<string>)
    requires |paths| >= 1 && forall k :: 0 <= k < |paths| ==> '\n' !in paths[k]
    ensures SplitOn(ConcatList(paths), '\n') == ConcatLines(paths)
    ensures ConcatList(paths)[|ConcatList(paths)| - 1] == '\''
  {
    var lines := ConcatLines(paths);
    forall k | 0 <= k < |lines|
      ensures '\n' !in lines[k]
    {
      LineHasNoNewline(paths[k]);
    }
    SplitOnJoin(lines, '\n');
    JoinLast(lines, "\n");
  }

  lemma LineHasNoNewline(path: string)
    requires '\n' !in path
    ensures '\n' !in ConcatLine(path)
  {
    var r := ReplaceChar(path, '\\', '/');
    assert forall i :: 0 <= i < |r| ==> r[i] == path[i] || r[i] == '/';
  }

  /** A join ends with the end of its last part. */
  lemma {:induction false} JoinLast(parts: seq<string>, sep: string)
    requires |parts| >= 1 && parts[|parts| - 1] != []
    ensures var j := Join(parts, sep); |j| >= 1 && j[|j| - 1] == parts[|parts| - 1][|parts[|parts| - 1]| - 1]
  {
    if |parts| > 1 {
      JoinLast(parts[1..], sep);
    }
  }

  lemma ConcatListEmpty()
    ensures ConcatList([]) == ""
  {
  }

  /** No backslash survives into the list. */
  lemma {:induction false} ConcatListNoBackslash(paths: seq<string>)
    ensures '\\' !in ConcatList(paths)
  {
    var lines := ConcatLines(paths);
    forall k | 0 <= k < |lines|
      ensures '\\' !in lines[k]
    {
      var r := ReplaceChar(paths[k], '\\', '/');
      assert forall i :: 0 <= i < |r| ==> r[i] != '\\';
      assert lines[k] == "file '" + r + "'";
    }
    JoinAvoids(lines, "\n", '\\');
  }

  lemma {:induction false} JoinAvoids(parts: seq<string>, sep: string, c: char)
    requires c !in sep && forall k :: 0 <= k < |parts| ==> c !in parts[k]
    ensures c !in Join(parts, sep)
  {
    if |parts| > 1 {
      JoinAvoids(parts[1..], sep, c);
    }
  }

  // ---------------------------------------------------------------------------
  // Encoder stages

  /** Run `command`; when it runs, its output lands at `outputPath`. */
  method RunEncoder(fs: FileSystem, exec: Command -> ExecResult, command: Command, outputPath: string)
    returns (run: ExecResult)
    modifies fs
    ensures run == exec(command)
    ensures fs.files == if run.Ran? then old(fs.files)[outputPath := Binary(run.output)] else old(fs.files)
    ensures fs.dirs == old(fs.dirs)
  {
    run := exec(command);
    if run.Ran? {
      fs.WriteFile(outputPath, Binary(run.output));
    }
  }

  /** A fatal stage: a failed command is rethrown as `context` followed by its message. */
  method FatalStage(fs: FileSystem, exec: Command -> ExecResult, command: Command, outputPath: string, context: string)
    returns (r: Result<string>)
    modifies fs
    ensures exec(command).Ran? ==> r == Ok(outputPath) && fs.files == old(fs.files)[outputPath := Binary(exec(command).output)]
    ensures exec(command).ExecFailed? ==> r == Err(context + exec(command).message) && fs.files == old(fs.files)
    ensures fs.dirs == old(fs.dirs)
  {
    var run := RunEncoder(fs, exec, command, outputPath);
    if run.Ran? {
      r := Ok(outputPath);
    } else {
      r := Err(context + run.message);
    }
  }

  /**
   * A pass-through stage: a failed command is replaced by a byte copy of the input; only a
   * failing copy (the input is missing) escapes as an error.
   */
  method PassThroughStage(fs: FileSystem, exec: Command -> ExecResult, command: Command, inputPath: string, outputPath: string)
    returns (r: Result<string>)
    modifies fs
    ensures exec(command).Ran? ==> r == Ok(outputPath) && fs.files == old(fs.files)[outputPath := Binary(exec(command).output)]
    ensures exec(command).ExecFailed? && inputPath in old(fs.files) ==>
              r == Ok(outputPath) && fs.files == old(fs.files)[outputPath := old(fs.files)[inputPath]]
    ensures exec(command).ExecFailed? && inputPath !in old(fs.files) ==> r.Err? && fs.files == old(fs.files)
    ensures fs.dirs == old(fs.dirs)
  {
    var run := RunEncoder(fs, exec, command, outputPath);
    if run.Ran? {
      r := Ok(outputPath);
    } else {
      var o := fs.CopyFile(inputPath, outputPath);
      if o.Pass? {
        r := Ok(outputPath);
      } else {
        r := Err(o.error);
      }
    }
  }

  method CreateSceneVideo(fs: FileSystem, exec: Command -> ExecResult, imagePath: string, audioPath: string, outputPath: string)
    returns (r: Result<string>)
    modifies fs
    ensures var run := exec(SceneClip(imagePath, audioPath, outputPath));
            (run.Ran? ==> r == Ok(outputPath) && fs.files == old(fs.files)[outputPath := Binary(run.output)]) &&
            (run.ExecFailed? ==> r == Err("Scene video creation failed: " + run.message) && fs.files == old(fs.files))
    ensures fs.dirs == old(fs.dirs)
  {
    r := FatalStage(fs, exec, SceneClip(imagePath, audioPath, outputPath), outputPath, "Scene video creation failed: ");
  }

  /** Write the concat list to `listFilePath`, then join the clips with the concat demuxer. */
  method ConcatenateVideos(fs: FileSystem, exec: Command -> ExecResult, videoPaths: seq<string>, outputPath: string,
                           listFilePath: string)
    returns (r: Result<string>)
    modifies fs
    ensures var listed := old(fs.files)[listFilePath := Text(ConcatList(videoPaths))];
            var run := exec(Concat(listFilePath, outputPath));
            (run.Ran? ==> r == Ok(outputPath) && fs.files == listed[outputPath := Binary(run.output)]) &&
            (run.ExecFailed? ==> r == Err("Video concatenation failed: " + run.message) && fs.files == listed)
    ensures fs.dirs == old(fs.dirs)
  {
    fs.WriteFile(listFilePath, Text(ConcatList(videoPaths)));
    r := FatalStage(fs, exec, Concat(listFilePath, outputPath), outputPath, "Video concatenation failed: ");
  }

  method AddSubtitles(fs: FileSystem, exec: Command -> ExecResult, videoPath: string, subtitlePath: string, outputPath: string)
    returns (r: Result<string>)
    modifies fs
    ensures var run := exec(BurnSubtitles(videoPath, subtitlePath, outputPath));
            (run.Ran? ==> r == Ok(outputPath) && fs.files == old(fs.files)[outputPath := Binary(run.output)]) &&
            (run.ExecFailed? && videoPath in old(fs.files) ==>
               r == Ok(outputPath) && fs.files == old(fs.files)[outputPath := old(fs.files)[videoPath]]) &&
            (run.ExecFailed? && videoPath !in old(fs.files) ==> r.Err? && fs.files == old(fs.files))
    ensures fs.dirs == old(fs.dirs)
  {
    r := PassThroughStage(fs, exec, BurnSubtitles(videoPath, subtitlePath, outputPath), videoPath, outputPath);
  }

  method AddBackgroundMusic(fs: FileSystem, exec: Command -> ExecResult, videoPath: string, musicPath: string,
                            outputPath: string, volume: string)
    returns (r: Result<string>)
    modifies fs
    ensures var run := exec(MixMusic(videoPath, musicPath, outputPath, volume));
            (run.Ran? ==> r == Ok(outputPath) && fs.files == old(fs.files)[outputPath := Binary(run.output)]) &&
            (run.ExecFailed? && videoPath in old(fs.files) ==>
               r == Ok(outputPath) && fs.files == old(fs.files)[outputPath := old(fs.files)[videoPath]]) &&
            (run.ExecFailed? && videoPath !in old(fs.files) ==> r.Err? && fs.files == old(fs.files))
    ensures fs.dirs == old(fs.dirs)
  {
    r := PassThroughStage(fs, exec, MixMusic(videoPath, musicPath, outputPath, volume), videoPath, outputPath);
  }

  method OptimizeVideo(fs: FileSystem, exec: Command -> ExecResult, inputPath: string, outputPath: string)
    returns (r: Result<string>)
    modifies fs
    ensures var run := exec(Optimize(inputPath, outputPath));
            (run.Ran? ==> r == Ok(outputPath) && fs.files == old(fs.files)[outputPath := Binary(run.output)]) &&
            (run.ExecFailed? && inputPath in old(fs.files) ==>
               r == Ok(outputPath) && fs.files == old(fs.files)[outputPath := old(fs.files)[inputPath]]) &&
            (run.ExecFailed? && inputPath !in old(fs.files) ==> r.Err? && fs.files == old(fs.files))
    ensures fs.dirs == old(fs.dirs)
  {
    r := PassThroughStage(fs, exec, Optimize(inputPath, outputPath), inputPath, outputPath);
  }

  method CreateThumbnail(fs: FileSystem, exec: Command -> ExecResult, videoPath: string, outputPath: string, timestamp: string)
    returns (r: Result<string>)
    modifies fs
    ensures var run := exec(Thumbnail(videoPath, outputPath, timestamp));
            (run.Ran? ==> r == Ok(outputPath) && fs.files == old(fs.files)[outputPath := Binary(run.output)]) &&
            (run.ExecFailed? ==> r == Err("Thumbnail creation failed: " + run.message) && fs.files == old(fs.files))
    ensures fs.dirs == old(fs.dirs)
  {
    r := FatalStage(fs, exec, Thumbnail(videoPath, outputPath, timestamp), outputPath, "Thumbnail creation failed: ");
  }

  // ---------------------------------------------------------------------------
  // Metadata

  /** The fields of ffprobe's JSON the stage reads; an absent field is `None`. */
  datatype StreamInfo = StreamInfo(width: Option<nat>, height: Option<nat>, duration: Option<string>)
  datatype FormatInfo = FormatInfo(duration: Option<string>, size: Option<string>)
  datatype ProbeData = ProbeData(streams: seq<StreamInfo>, format: Option<FormatInfo>)

  /**
   * What `getVideoMetadata` returns. Durations are milliseconds; a `None` duration or size
   * is the `NaN` that `parseFloat`/`parseInt` give for text that does not start with a digit.
   */
  datatype VideoMetadata = VideoMetadata(width: nat, height: nat, duration: Option<nat>, fileSize: Option<nat>)

  const DefaultMetadata := VideoMetadata(1080, 1920, Some(0), Some(0))

  /** A JSON string field that is present and non-empty, i.e. truthy. */
  predicate Truthy(field: Option<string>) {
    field.Some? && field.value != ""
  }

  /** The number of leading decimal digits. */
  function DigitRun(s: string): (n: nat)
    ensures n <= |s|
  {
    if s == [] || !IsDigit(s[0]) then 0
    else 1 + DigitRun(s[1..])
  }

  lemma {:induction false} DigitRunDigits(s: string)
    ensures AllDigits(s[..DigitRun(s)]) && (DigitRun(s) < |s| ==> !IsDigit(s[DigitRun(s)]))
  {
    if s != [] && IsDigit(s[0]) {
      DigitRunDigits(s[1..]);
      assert s[..DigitRun(s)] == [s[0]] + s[1..][..DigitRun(s[1..])];
    }
  }

  /** `parseInt(s)` for text of the form digits followed by anything. */
  function ParseIntPrefix(s: string): Option<nat> {
    var n := DigitRun(s);
    DigitRunDigits(s);
    if n == 0 then None else Some(ParseDigits(s[..n]))
  }

  /** The millisecond part of a decimal fraction: its first three digits, the rest dropped. */
  function FracMs(t: string): (ms: nat)
    ensures ms < 1000
  {
    var n := DigitRun(t);
    DigitRunDigits(t);
    var d := if n <= 3 then t[..n] else t[..3];
    assert AllDigits(d);
    ParseDigitsBound(d);
    assert Pow10(3) == 1000;
    if |d| == 0 then 0
    else if |d| == 1 then ParseDigits(d) * 100
    else if |d| == 2 then ParseDigits(d) * 10
    else ParseDigits(d)
  }

  /** `parseFloat(s)` in milliseconds, for text of the form `digits[.digits]` followed by anything. */
  function ParseFloatMs(s: string): Option<nat> {
    var n := DigitRun(s);
    DigitRunDigits(s);
    if n == 0 then None else Some(DecimalMs(s[..n], s[n..]))
  }

  /** The milliseconds of `whole` seconds followed by `rest`, whose fraction counts if it starts with `.`. */
  function DecimalMs(whole: string, rest: string): nat
    requires AllDigits(whole)
  {
    ParseDigits(whole) * 1000 + if rest != [] && rest[0] == '.' then FracMs(rest[1..]) else 0
  }

  /** The stage's defaulting, given ffprobe's parsed output or `None` when ffprobe or `JSON.parse` failed. */
  function MetadataOf(probe: Option<ProbeData>): (m: VideoMetadata)
    ensures m.width != 0 && m.height != 0
  {
    match probe
    case None => DefaultMetadata
    case Some(data) =>
      var stream := if data.streams == [] then StreamInfo(None, None, None) else data.streams[0];
      var format := if data.format.None? then FormatInfo(None, None) else data.format.value;
      var width := if stream.width.Some? && stream.width.value != 0 then stream.width.value else 1080;
      var height := if stream.height.Some? && stream.height.value != 0 then stream.height.value else 1920;
      var duration := if Truthy(format.duration) then ParseFloatMs(format.duration.value)
                      else if Truthy(stream.duration) then ParseFloatMs(stream.duration.value)
                      else Some(0);
      var size := if Truthy(format.size) then ParseIntPrefix(format.size.value) else Some(0);
      VideoMetadata(width, height, duration, size)
  }

  /** `getVideoMetadata(videoPath)`, with `ffprobe` the oracle for running the probe command. */
  function GetVideoMetadata(ffprobe: Command -> Option<ProbeData>, videoPath: string): VideoMetadata {
    MetadataOf(ffprobe(Probe(videoPath)))
  }

  /** Any failure of the probe gives all the defaults. */
  lemma MetadataOnFailure(ffprobe: Command -> Option<ProbeData>, videoPath: string)
    requires ffprobe(Probe(videoPath)).None?
    ensures GetVideoMetadata(ffprobe, videoPath) == VideoMetadata(1080, 1920, Some(0), Some(0))
  {
  }

  /** A reported non-zero width and height are kept; a missing or zero one defaults to 1080x1920. */
  lemma MetadataSize(data: ProbeData)
    ensures var m := MetadataOf(Some(data));
            var w := if data.streams == [] then None else data.streams[0].width;
            var h := if data.streams == [] then None else data.streams[0].height;
            (w.Some? && w.value != 0 ==> m.width == w.value) && (w.None? || w.value == 0 ==> m.width == 1080) &&
            (h.Some? && h.value != 0 ==> m.height == h.value) && (h.None? || h.value == 0 ==> m.height == 1920)
  {
  }

  /** The format's duration wins over the stream's; the stream's is read only when the format has none. */
  lemma MetadataDuration(data: ProbeData)
    ensures var m := MetadataOf(Some(data));
            var format := if data.format.None? then FormatInfo(None, None) else data.format.value;
            var stream := if data.streams == [] then StreamInfo(None, None, None) else data.streams[0];
            (Truthy(format.duration) ==> m.duration == ParseFloatMs(format.duration.value)) &&
            (!Truthy(format.duration) && Truthy(stream.duration) ==> m.duration == ParseFloatMs(stream.duration.value)) &&
            (!Truthy(format.duration) && !Truthy(stream.duration) ==> m.duration == Some(0))
  {
  }

  /** `parseFloat` reads a seconds value written to the millisecond exactly. */
  lemma ParseFloatOfMillis(seconds: nat, millis: nat)
    requires millis < 1000
    ensures ParseFloatMs(NatToString(seconds) + "." + PadZeros(NatToString(millis), 3)) == Some(seconds * 1000 + millis)
  {
    assert Pow10(3) == 1000;
    PadZerosRoundTrip(millis, 3);
    ParseNatToString(seconds);
    ParseFloatOfDigits(seconds, millis, NatToString(seconds), PadZeros(NatToString(millis), 3));
  }

  lemma ParseFloatOfDigits(seconds: nat, millis: nat, a: string, f: string)
    requires a != [] && AllDigits(a) && ParseDigits(a) == seconds
    requires AllDigits(f) && |f| == 3 && ParseDigits(f) == millis
    ensures ParseFloatMs(a + "." + f) == Some(seconds * 1000 + millis)
  {
    AppendAssoc(a, ".", f);
    ParseFloatOfParts(a, f, a + "." + f, "." + f);
  }

  /** A whole number of seconds reads back exactly. */
  lemma ParseFloatOfSeconds(n: nat)
    ensures ParseFloatMs(NatToString(n)) == Some(n * 1000)
  {
    var s := NatToString(n);
    DigitRunOf(s, "");
    assert s + "" == s;
    assert s[..|s|] == s;
    ParseFloatSplit(s, |s|, s, []);
    ParseNatToString(n);
  }

  lemma ParseFloatOfParts(a: string, f: string, s: string, rest: string)
    requires a != [] && AllDigits(a) && AllDigits(f) && |f| == 3
    requires rest == "." + f && s == a + rest
    ensures ParseFloatMs(s) == Some(ParseDigits(a) * 1000 + ParseDigits(f))
  {
    DigitRunOf(a, rest);
    assert s[..|a|] == a;
    assert s[|a|..] == rest;
    ParseFloatSplit(s, |a|, a, rest);
    FracAfterDot(a, rest, f);
  }

  lemma FracAfterDot(a: string, rest: string, f: string)
    requires AllDigits(a) && AllDigits(f) && |f| == 3 && rest == "." + f
    ensures DecimalMs(a, rest) == ParseDigits(a) * 1000 + ParseDigits(f)
  {
    assert rest[1..] == f;
    FracOfThree(f);
  }

  lemma ParseFloatSplit(s: string, n: nat, whole: string, rest: string)
    requires DigitRun(s) == n > 0 && whole == s[..n] && rest == s[n..] && AllDigits(whole)
    ensures ParseFloatMs(s) == Some(DecimalMs(whole, rest))
  {
  }

  lemma FracOfThree(f: string)
    requires AllDigits(f) && |f| == 3
    ensures FracMs(f) == ParseDigits(f)
  {
    DigitRunOf(f, "");
    assert f + "" == f;
    assert f[..3] == f;
  }

  /** A run of digits followed by a non-digit (or nothing) is read up to that point. */
  lemma {:induction false} DigitRunOf(a: string, b: string)
    requires AllDigits(a) && (b != [] ==> !IsDigit(b[0]))
    ensures DigitRun(a + b) == |a|
  {
    if a != [] {
      assert (a + b)[1..] == a[1..] + b;
      DigitRunOf(a[1..], b);
    }
  }
}

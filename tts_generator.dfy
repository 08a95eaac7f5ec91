/**
 * The scene-voice front-end: the engine chosen by configuration (ElevenLabs by default, or
 * a local Bark script), the ElevenLabs voice table, the MP3-to-WAV conversion, the measured
 * duration with its two-second floor, and the three-second silent clip written when the
 * engine fails. Durations are milliseconds; `None` is the `NaN` that `parseFloat` gives
 * for unreadable probe output.
 */
module TtsGenerator {
  import opened Wrappers
  import opened JsText
  import opened Environment
  import opened FfmpegCommands

  // ---------------------------------------------------------------------------
  // Voices

  /** The default ElevenLabs voice id. */
  const DefaultVoiceId := "21m00Tcm4TlvDq8ikWAM"

  /** The voice table's own entries. */
  function OwnVoice(voiceId: string): Option<string> {
    if voiceId == "default" || voiceId == "female" then Some(DefaultVoiceId)
    else if voiceId == "male" then Some("ErXwobaYiN019PkySvjV")
    else if voiceId == "british" then Some("pNInz6obpgDQGcFmaJgB")
    else None
  }

  /** The ElevenLabs voice of a requested id: its table entry, or the default voice. */
  function ElevenLabsVoice(voiceId: string): (v: string)
    ensures OwnVoice(voiceId).Some? ==> v == OwnVoice(voiceId).value
    ensures OwnVoice(voiceId).None? ==> v == DefaultVoiceId
  {
    if OwnVoice(voiceId).Some? then OwnVoice(voiceId).value else DefaultVoiceId
  }

  /** The table maps the four names and nothing else; every result is one of the three voices. */
  lemma VoiceTable(voiceId: string)
    ensures ElevenLabsVoice(voiceId) in {DefaultVoiceId, "ErXwobaYiN019PkySvjV", "pNInz6obpgDQGcFmaJgB"}
    ensures ElevenLabsVoice(voiceId) != DefaultVoiceId <==> voiceId == "male" || voiceId == "british"
  {
  }

  /**
   * The members every object literal inherits from `Object.prototype`, as a template string
   * renders them: the methods as their native source text, `__proto__` as `[object Object]`.
   */
  function InheritedMember(key: string): Option<string> {
    if key == "__proto__" then Some("[object Object]")
    else if key == "constructor" then Some("function Object() { [native code] }")
    else if key in {"toString", "toLocaleString", "valueOf", "hasOwnProperty", "isPrototypeOf",
                    "propertyIsEnumerable", "__defineGetter__", "__defineSetter__",
                    "__lookupGetter__", "__lookupSetter__"}
    then Some(NativeFunction(key))
    else None
  }

  /** How a template string renders a built-in method. */
  function NativeFunction(name: string): string {
    "function " + name + "() { [native code] }"
  }

  /**
   * `elevenLabsVoices[voiceId] || elevenLabsVoices.default` as written: the indexing also
   * finds the inherited members, which are truthy, so they reach the request URL.
   */
  function ElevenLabsVoiceAsWritten(voiceId: string): string {
    if OwnVoice(voiceId).Some? then OwnVoice(voiceId).value
    else if InheritedMember(voiceId).Some? then InheritedMember(voiceId).value
    else DefaultVoiceId
  }

  /** Away from the inherited names the lookup as written is the table. */
  lemma AsWrittenAgreesOffPrototype(voiceId: string)
    requires InheritedMember(voiceId).None?
    ensures ElevenLabsVoiceAsWritten(voiceId) == ElevenLabsVoice(voiceId)
  {
  }

  /** The voice id `toString` is not sent as the default voice but as a function's source text. */
  lemma AsWrittenSendsFunctionText()
    ensures ElevenLabsVoiceAsWritten("toString") == NativeFunction("toString")
    ensures ElevenLabsVoice("toString") == DefaultVoiceId
    ensures ElevenLabsVoiceAsWritten("toString") != ElevenLabsVoice("toString")
  {
    assert OwnVoice("toString").None?;
    assert InheritedMember("toString") == Some(NativeFunction("toString"));
    assert |NativeFunction("toString")| != |DefaultVoiceId|;
  }

  // ---------------------------------------------------------------------------
  // Engines

  datatype Engine = ElevenLabs | Bark | UnknownEngine(name: string)

  /** The dispatch on `TTS_ENGINE` (default `elevenlabs`). */
  function EngineOf(env: Option<string>): (e: Engine)
    ensures e == Bark <==> env == Some("bark")
    ensures e == ElevenLabs <==> env.None? || env == Some("") || env == Some("elevenlabs")
    ensures e.UnknownEngine? ==> env == Some(e.name) && e.name !in {"", "bark", "elevenlabs"}
  {
    var name := EnvOr(env, "elevenlabs");
    if name == "bark" then Bark else if name == "elevenlabs" then ElevenLabs else UnknownEngine(name)
  }

  /** The external programs the front-end runs. */
  datatype AudioCommand =
    | Mp3ToWav(mp3Path: string, wavPath: string)
    | BarkSpeak(script: string, text: string, outputPath: string, voice: string)
    | Silence(outputPath: string, seconds: string)

  /** The command text of each program. */
  function AudioCommandLine(c: AudioCommand): string {
    match c
    case Mp3ToWav(mp3, wav) => "ffmpeg -i \"" + mp3 + "\" -ar 44100 -ac 2 \"" + wav + "\" -y"
    case BarkSpeak(script, text, out, voice) =>
      "python \"" + script + "\" --text \"" + EscapeQuotes(text) + "\" --output \"" + out + "\" --voice \"" + voice + "\""
    case Silence(out, seconds) => "ffmpeg -f lavfi -i anullsrc=r=44100:cl=stereo -t " + seconds + " \"" + out + "\" -y"
  }

  /** The answer to the ElevenLabs request: the MP3 bytes, or the failure. */
  datatype PostReply = PostFailed(message: string) | Posted(audio: seq<bv8>)

  /** An engine's effect on the disk and what it returned or threw. */
  datatype AudioRun = AudioRun(files: map<string, FileData>, dirs: set<string>, result: Result<string>)

  const ElevenLabsApi := "https://api.elevenlabs.io/v1/text-to-speech/"

  /** `outputPath.replace('.wav', '.mp3')`: the first `.wav` in the path becomes `.mp3`. */
  function Mp3Path(outputPath: string): string {
    ReplaceFirst(outputPath, ".wav", ".mp3")
  }

  /**
   * `generateWithElevenLabs(text, voiceId, outputPath)`: no key fails before any request;
   * else save the MP3, convert it to a 44.1 kHz stereo WAV, delete the MP3.
   */
  function ElevenLabsRun(apiKey: Option<string>, post: (string, string, string) -> PostReply,
                         exec: AudioCommand -> ExecResult, files: map<string, FileData>, dirs: set<string>,
                         text: string, voiceId: string, outputPath: string): AudioRun
  {
    if apiKey.None? || apiKey.value == "" then AudioRun(files, dirs, Err("ElevenLabs API key not configured"))
    else match post(ElevenLabsApi + voiceId, text, apiKey.value)
      case PostFailed(m) => AudioRun(files, dirs, Err("ElevenLabs TTS generation failed: " + m))
      case Posted(audio) =>
        var mp3 := Mp3Path(outputPath);
        var saved := files[mp3 := Binary(audio)];
        match exec(Mp3ToWav(mp3, outputPath))
        case ExecFailed(m) => AudioRun(saved, dirs, Err("ElevenLabs TTS generation failed: " + m))
        case Ran(wav) => AudioRun(saved[outputPath := Binary(wav)] - {mp3}, dirs, Ok(outputPath))
  }

  /** `scripts/bark_tts.py` under the working directory. */
  function BarkScriptPath(root: string): string {
    PathJoin(PathJoin(root, "scripts"), "bark_tts.py")
  }

  /**
   * `generateWithBark(text, voicePreset, outputPath)`: write the script first if it is
   * missing (making its directory), then run it; its exit status alone decides.
   */
  function BarkRun(barkScript: string, exec: AudioCommand -> ExecResult, root: string,
                   files: map<string, FileData>, dirs: set<string>, text: string, voice: string, outputPath: string): AudioRun
  {
    var script := BarkScriptPath(root);
    var scriptDir := PathJoin(root, "scripts");
    var files' := if script in files || script in dirs then files else files[script := Text(barkScript)];
    var dirs' := if script in files || script in dirs || scriptDir in files || scriptDir in dirs then dirs else dirs + {scriptDir};
    match exec(BarkSpeak(script, text, outputPath, voice))
    case ExecFailed(m) => AudioRun(files', dirs', Err("Bark TTS generation failed: " + m))
    case Ran(wav) => AudioRun(files'[outputPath := Binary(wav)], dirs', Ok(outputPath))
  }

  /** A missing or empty API key fails identically whatever the remote side and the converter would do. */
  lemma MissingKeyMakesNoRequest(apiKey: Option<string>, post1: (string, string, string) -> PostReply,
                                 post2: (string, string, string) -> PostReply, exec1: AudioCommand -> ExecResult,
                                 exec2: AudioCommand -> ExecResult, files: map<string, FileData>, dirs: set<string>,
                                 text: string, voiceId: string, outputPath: string)
    requires apiKey.None? || apiKey.value == ""
    ensures ElevenLabsRun(apiKey, post1, exec1, files, dirs, text, voiceId, outputPath) ==
            ElevenLabsRun(apiKey, post2, exec2, files, dirs, text, voiceId, outputPath) ==
            AudioRun(files, dirs, Err("ElevenLabs API key not configured"))
  {
  }

  /** A successful ElevenLabs run leaves the WAV and drops the MP3; a failed conversion leaves the MP3 behind. */
  lemma ElevenLabsFiles(apiKey: Option<string>, post: (string, string, string) -> PostReply,
                        exec: AudioCommand -> ExecResult, files: map<string, FileData>, dirs: set<string>,
                        text: string, voiceId: string, outputPath: string)
    requires Mp3Path(outputPath) != outputPath
    ensures var run := ElevenLabsRun(apiKey, post, exec, files, dirs, text, voiceId, outputPath);
            run.dirs == dirs &&
            (run.result.Ok? ==> run.result.value == outputPath && outputPath in run.files && Mp3Path(outputPath) !in run.files) &&
            (run.result.Err? && apiKey.Some? && apiKey.value != "" && post(ElevenLabsApi + voiceId, text, apiKey.value).Posted? ==>
               Mp3Path(outputPath) in run.files)
  {
  }

  /** The duration the probe reports: `parseFloat` of its trimmed output, or 3 s when it fails. */
  function ProbedDuration(probe: string -> Option<string>, audioPath: string): Option<nat> {
    match probe(audioPath)
    case None => Some(3000)
    case Some(stdout) => ParseFloatMs(Trim(stdout))
  }

  /** `Math.max(duration, 2.0)`: `NaN` stays `NaN`. */
  function AtLeastTwoSeconds(d: Option<nat>): Option<nat> {
    match d
    case None => None
    case Some(ms) => Some(if ms < 2000 then 2000 else ms)
  }

  /** The floor is two seconds, longer durations are kept, and applying it twice changes nothing. */
  lemma FloorProperties(d: Option<nat>)
    ensures AtLeastTwoSeconds(d).Some? <==> d.Some?
    ensures AtLeastTwoSeconds(d).Some? ==> AtLeastTwoSeconds(d).value >= 2000
    ensures d.Some? && d.value >= 2000 ==> AtLeastTwoSeconds(d) == d
    ensures AtLeastTwoSeconds(AtLeastTwoSeconds(d)) == AtLeastTwoSeconds(d)
  {
  }

  /** A failed probe gives three seconds, above the floor. */
  lemma FailedProbeIsThreeSeconds(probe: string -> Option<string>, audioPath: string)
    requires probe(audioPath).None?
    ensures AtLeastTwoSeconds(ProbedDuration(probe, audioPath)) == Some(3000)
  {
  }

  /** `temp/audio` under the working directory. */
  function AudioDir(root: string): string {
    PathJoin(PathJoin(root, "temp"), "audio")
  }

  /** `temp/audio/scene_<i>.wav`. */
  function SceneAudioPath(root: string, sceneIndex: nat): string {
    PathJoin(AudioDir(root), "scene_" + NatToString(sceneIndex) + ".wav")
  }

  /** For a path whose only `.` is that of `.wav`, the MP3 sits beside the WAV under the same name. */
  lemma Mp3Beside(dir: string, name: string)
    requires '.' !in dir && '.' !in name
    ensures Mp3Path(PathJoin(dir, name + ".wav")) == PathJoin(dir, name + ".mp3")
    ensures Mp3Path(PathJoin(dir, name + ".wav")) != PathJoin(dir, name + ".wav")
  {
    var a := dir + "/" + name;
    assert '.' !in a;
    assert PathJoin(dir, name + ".wav") == a + ".wav" + "";
    ReplaceFirstAfter(a, ".wav", "", ".mp3");
    assert PathJoin(dir, name + ".mp3") == a + ".mp3" + "";
    assert (a + ".mp3" + "")[|a| + 1] == 'm' && (a + ".wav" + "")[|a| + 1] == 'w';
  }

  /** With no `.` in the working directory, a scene's MP3 is `scene_<i>.mp3` beside its WAV. */
  lemma Mp3BesideWav(root: string, sceneIndex: nat)
    requires '.' !in root
    ensures Mp3Path(SceneAudioPath(root, sceneIndex)) == PathJoin(AudioDir(root), "scene_" + NatToString(sceneIndex) + ".mp3")
    ensures Mp3Path(SceneAudioPath(root, sceneIndex)) != SceneAudioPath(root, sceneIndex)
  {
    var digits := NatToString(sceneIndex);
    assert forall k :: 0 <= k < |digits| ==> digits[k] != '.';
    assert '.' !in "scene_" + digits;
    assert '.' !in AudioDir(root);
    Mp3Beside(AudioDir(root), "scene_" + digits);
  }

  /** What `generateSceneAudio` returns. */
  datatype SceneAudio = SceneAudio(audioPath: string, duration: Option<nat>)

  /**
   * The voice front-end. `root` is the working directory; the environment variables are
   * the optional strings, the remote side, the programs and the probe the oracles, and
   * `barkScript` the text of the Bark script written when it is missing.
   */
  class TtsService {
    const root: string
    const fs: FileSystem
    const engineEnv: Option<string>
    const apiKey: Option<string>
    const post: (string, string, string) -> PostReply
    const exec: AudioCommand -> ExecResult
    const probe: string -> Option<string>
    const barkScript: string

    constructor (root: string, fs: FileSystem, engineEnv: Option<string>, apiKey: Option<string>,
                 post: (string, string, string) -> PostReply, exec: AudioCommand -> ExecResult,
                 probe: string -> Option<string>, barkScript: string)
      ensures this.root == root && this.fs == fs && this.engineEnv == engineEnv && this.apiKey == apiKey
      ensures this.post == post && this.exec == exec && this.probe == probe && this.barkScript == barkScript
    {
      this.root := root;
      this.fs := fs;
      this.engineEnv := engineEnv;
      this.apiKey := apiKey;
      this.post := post;
      this.exec := exec;
      this.probe := probe;
      this.barkScript := barkScript;
    }

    /** The configured engine's run: Bark gets the voice id as given, ElevenLabs its table voice. */
    function EngineRun(files: map<string, FileData>, dirs: set<string>, text: string, voiceId: string, outputPath: string): AudioRun {
      match EngineOf(engineEnv)
      case Bark => BarkRun(barkScript, exec, root, files, dirs, text, voiceId, outputPath)
      case ElevenLabs => ElevenLabsRun(apiKey, post, exec, files, dirs, text, ElevenLabsVoice(voiceId), outputPath)
      case UnknownEngine(name) => AudioRun(files, dirs, Err("Unknown TTS engine: " + name))
    }

    /** Every engine that succeeds returns the output path. */
    lemma EngineReturnsOutput(files: map<string, FileData>, dirs: set<string>, text: string, voiceId: string, outputPath: string)
      ensures var run := EngineRun(files, dirs, text, voiceId, outputPath);
              run.result.Ok? ==> run.result.value == outputPath
      ensures var run := EngineRun(files, dirs, text, voiceId, outputPath);
              run.result.Ok? && Mp3Path(outputPath) != outputPath ==> outputPath in run.files
      ensures EngineOf(engineEnv).UnknownEngine? ==> EngineRun(files, dirs, text, voiceId, outputPath).result.Err?
    {
    }

    method GenerateWithElevenLabs(text: string, voiceId: string, outputPath: string) returns (r: Result<string>)
      modifies fs
      ensures AudioRun(fs.files, fs.dirs, r) == ElevenLabsRun(apiKey, post, exec, old(fs.files), old(fs.dirs), text, voiceId, outputPath)
    {
      if apiKey.None? || apiKey.value == "" {
        return Err("ElevenLabs API key not configured");
      }
      var reply := post(ElevenLabsApi + voiceId, text, apiKey.value);
      if reply.PostFailed? {
        return Err("ElevenLabs TTS generation failed: " + reply.message);
      }
      var mp3 := Mp3Path(outputPath);
      fs.WriteFile(mp3, Binary(reply.audio));
      var converted := exec(Mp3ToWav(mp3, outputPath));
      if converted.ExecFailed? {
        return Err("ElevenLabs TTS generation failed: " + converted.message);
      }
      fs.WriteFile(outputPath, Binary(converted.output));
      var removed := fs.Unlink(mp3);
      r := Ok(outputPath);
    }

    method GenerateWithBark(text: string, voice: string, outputPath: string) returns (r: Result<string>)
      modifies fs
      ensures AudioRun(fs.files, fs.dirs, r) == BarkRun(barkScript, exec, root, old(fs.files), old(fs.dirs), text, voice, outputPath)
    {
      var script := BarkScriptPath(root);
      if !fs.Exists(script) {
        var scriptDir := PathJoin(root, "scripts");
        if !fs.Exists(scriptDir) {
          fs.MakeDir(scriptDir);
        }
        fs.WriteFile(script, Text(barkScript));
      }
      var run := exec(BarkSpeak(script, text, outputPath, voice));
      if run.ExecFailed? {
        return Err("Bark TTS generation failed: " + run.message);
      }
      fs.WriteFile(outputPath, Binary(run.output));
      r := Ok(outputPath);
    }

    /** The engine dispatch of `generateSceneAudio`. */
    method Speak(text: string, voiceId: string, outputPath: string) returns (r: Result<string>)
      modifies fs
      ensures AudioRun(fs.files, fs.dirs, r) == EngineRun(old(fs.files), old(fs.dirs), text, voiceId, outputPath)
    {
      match EngineOf(engineEnv)
      case Bark =>
        r := GenerateWithBark(text, voiceId, outputPath);
      case ElevenLabs =>
        r := GenerateWithElevenLabs(text, ElevenLabsVoice(voiceId), outputPath);
      case UnknownEngine(name) =>
        r := Err("Unknown TTS engine: " + name);
    }

    /** `createSilentAudio(outputPath, 3.0)`: its failure propagates. */
    method CreateSilentAudio(outputPath: string) returns (r: Result<string>)
      modifies fs
      ensures exec(Silence(outputPath, "3")).Ran? ==>
                r == Ok(outputPath) && fs.files == old(fs.files)[outputPath := Binary(exec(Silence(outputPath, "3")).output)]
      ensures exec(Silence(outputPath, "3")).ExecFailed? ==>
                r == Err(exec(Silence(outputPath, "3")).message) && fs.files == old(fs.files)
      ensures fs.dirs == old(fs.dirs)
    {
      var run := exec(Silence(outputPath, "3"));
      if run.ExecFailed? {
        return Err(run.message);
      }
      fs.WriteFile(outputPath, Binary(run.output));
      r := Ok(outputPath);
    }

    /** The `try`/`catch` of `generateSceneAudio`: the engine's clip with its floored duration, or three seconds of silence. */
    method SpeakAt(text: string, voiceId: string, outputPath: string) returns (r: Result<SceneAudio>)
      modifies fs
      ensures var run := EngineRun(old(fs.files), old(fs.dirs), text, voiceId, outputPath);
              var silence := exec(Silence(outputPath, "3"));
              fs.dirs == run.dirs &&
              (run.result.Ok? ==> r == Ok(SceneAudio(outputPath, AtLeastTwoSeconds(ProbedDuration(probe, outputPath)))) &&
                                  fs.files == run.files) &&
              (run.result.Err? && silence.Ran? ==>
                 r == Ok(SceneAudio(outputPath, Some(3000))) && fs.files == run.files[outputPath := Binary(silence.output)]) &&
              (run.result.Err? && silence.ExecFailed? ==> r == Err(silence.message) && fs.files == run.files)
    {
      var spoken := Speak(text, voiceId, outputPath);
      if spoken.Ok? {
        EngineReturnsOutput(old(fs.files), old(fs.dirs), text, voiceId, outputPath);
        var duration := ProbedDuration(probe, spoken.value);
        return Ok(SceneAudio(spoken.value, AtLeastTwoSeconds(duration)));
      }
      var silent := CreateSilentAudio(outputPath);
      if silent.Err? {
        return Err(silent.error);
      }
      r := Ok(SceneAudio(silent.value, Some(3000)));
    }

    /** The directories after `temp/audio` is made when missing. */
    function DirsWithAudio(files: map<string, FileData>, dirs: set<string>): set<string> {
      if AudioDir(root) in files || AudioDir(root) in dirs then dirs else dirs + {AudioDir(root)}
    }

    /**
     * `generateSceneAudio(sceneText, sceneIndex, voiceId)`: the clip is always
     * `temp/audio/scene_<i>.wav`; an absent voice id is `default`.
     */
    method GenerateSceneAudio(sceneText: string, sceneIndex: nat, voiceId: Option<string>) returns (r: Result<SceneAudio>)
      modifies fs
      ensures var out := SceneAudioPath(root, sceneIndex);
              var voice := if voiceId.Some? then voiceId.value else "default";
              var run := EngineRun(old(fs.files), DirsWithAudio(old(fs.files), old(fs.dirs)), sceneText, voice, out);
              var silence := exec(Silence(out, "3"));
              fs.dirs == run.dirs &&
              (run.result.Ok? ==> r == Ok(SceneAudio(out, AtLeastTwoSeconds(ProbedDuration(probe, out)))) &&
                                  fs.files == run.files) &&
              (run.result.Err? && silence.Ran? ==>
                 r == Ok(SceneAudio(out, Some(3000))) && fs.files == run.files[out := Binary(silence.output)]) &&
              (run.result.Err? && silence.ExecFailed? ==> r == Err(silence.message) && fs.files == run.files)
    {
      var outputDir := AudioDir(root);
      if !fs.Exists(outputDir) {
        fs.MakeDir(outputDir);
      }
      var outputPath := SceneAudioPath(root, sceneIndex);
      var voice := if voiceId.Some? then voiceId.value else "default";
      r := SpeakAt(sceneText, voice, outputPath);
    }
  }
}

/**
 * The scene-image front-end: the prompt built from a scene's text and style, the choice of
 * backend (local Stable Diffusion, Automatic1111 or ComfyUI) by configuration, and the
 * placeholder written when the chosen backend fails. Each backend's remote side is an
 * oracle; what the front-end does with its answers is modelled.
 */
module ImageGenerator {
  import opened Wrappers
  import opened JsText
  import opened Environment

  // ---------------------------------------------------------------------------
  // Prompt

  /** The style phrase bank; any other style takes the realistic phrase. */
  function StylePhrase(style: string): string {
    if style == "cinematic" then "cinematic lighting, movie scene, dramatic, epic"
    else if style == "anime" then "anime style, studio ghibli, vibrant colors, detailed"
    else if style == "digital_art" then "digital art, concept art, trending on artstation"
    else if style == "oil_painting" then "oil painting, artistic, brushstrokes, classical art"
    else if style == "cartoon" then "3d cartoon, pixar style, vibrant, cute"
    else "photorealistic, highly detailed, 8k, professional photography"
  }

  /** The six styles of the bank. */
  predicate IsStyle(style: string) {
    style == "realistic" || style == "cinematic" || style == "anime" ||
    style == "digital_art" || style == "oil_painting" || style == "cartoon"
  }

  /** The fixed tail of every prompt. */
  function PromptTail(): string {
    ", high quality, masterpiece, vertical format, portrait orientation"
  }

  /** The phrase of an optional style; an absent style is `realistic`. */
  function BankOf(style: Option<string>): string {
    if style.Some? then StylePhrase(style.value) else StylePhrase("realistic")
  }

  /** The prompt's shape: the scene text, `, `, a style phrase and a tail. */
  function Prompt(sceneText: string, bank: string, tail: string): string {
    sceneText + ", " + bank + tail
  }

  /** `buildPrompt(sceneText, style)`. */
  function BuildPrompt(sceneText: string, style: Option<string>): string {
    Prompt(sceneText, BankOf(style), PromptTail())
  }

  /** The scene text a prompt was built from, given the style phrase and the tail it was built with. */
  function SceneTextOf(prompt: string, bank: string, tail: string): string {
    var n := |bank| + |tail| + 2;
    if |prompt| < n then prompt else prompt[..|prompt| - n]
  }

  /** The scene text comes back out of a prompt, which starts with it and ends with the phrase and tail. */
  lemma PromptRoundTrip(sceneText: string, bank: string, tail: string)
    ensures SceneTextOf(Prompt(sceneText, bank, tail), bank, tail) == sceneText
    ensures StartsWith(Prompt(sceneText, bank, tail), sceneText + ", ")
    ensures EndsWith(Prompt(sceneText, bank, tail), bank + tail)
  {
    var p := Prompt(sceneText, bank, tail);
    assert p == (sceneText + ", ") + (bank + tail);
    AppendSlices(sceneText + ", ", bank + tail);
    assert p == sceneText + (", " + bank + tail);
    AppendSlices(sceneText, ", " + bank + tail);
  }

  /** Distinct scene texts give distinct prompts under the same style. */
  lemma PromptInjective(a: string, b: string, style: Option<string>)
    requires BuildPrompt(a, style) == BuildPrompt(b, style)
    ensures a == b
  {
    var bank := BankOf(style);
    var tail := PromptTail();
    PromptRoundTrip(a, bank, tail);
    PromptRoundTrip(b, bank, tail);
  }

  /** A style outside the bank, and an absent style, take the realistic phrase. */
  lemma UnknownStyleIsRealistic(style: string)
    ensures !IsStyle(style) ==> BankOf(Some(style)) == BankOf(Some("realistic"))
    ensures BankOf(None) == BankOf(Some("realistic"))
  {
  }

  // ---------------------------------------------------------------------------
  // Configuration

  /** The image backends. */
  datatype Backend = LocalSD | A1111 | ComfyUI

  /** The dispatch on `IMAGE_API_TYPE` (default `local`). */
  function BackendOf(apiType: Option<string>): (b: Backend)
    ensures b == ComfyUI <==> apiType == Some("comfyui")
    ensures b == A1111 <==> apiType == Some("a1111")
    ensures b == LocalSD <==> apiType != Some("comfyui") && apiType != Some("a1111")
  {
    var t := EnvOr(apiType, "local");
    if t == "comfyui" then ComfyUI else if t == "a1111" then A1111 else LocalSD
  }

  // ---------------------------------------------------------------------------
  // Local Stable Diffusion

  /** The command the local backend runs: interpreter, script, escaped prompt and output path. */
  datatype SdCommand = SdCommand(python: string, script: string, prompt: string, outputPath: string)

  /** The command's text: each argument in double quotes, the prompt escaped. */
  function SdCommandLine(c: SdCommand): string {
    c.python + " \"" + c.script + "\" \"" + EscapeQuotes(c.prompt) + "\" \"" + c.outputPath + "\""
  }

  /** What running the script gave: it exited (maybe writing an image) or the exec failed. */
  datatype SdOutcome = SdExited(image: Option<seq<bv8>>) | SdFailed(message: string)

  // ---------------------------------------------------------------------------
  // ComfyUI polling

  /** One `images[0]` entry of the SaveImage node, all three fields strings. */
  datatype ImageInfo = ImageInfo(filename: string, subfolder: string, kind: string)

  /** An output node of the history; `images` may be missing. */
  datatype OutputNode = OutputNode(images: Option<seq<ImageInfo>>)

  /** A prompt's history entry: `status.completed` and the output nodes, when present. */
  datatype HistoryEntry = HistoryEntry(completed: bool, outputs: Option<map<string, OutputNode>>)

  /** The answer to `GET /history/:id` at one attempt. */
  datatype HistoryReply = HistoryFailed(message: string) | HistoryReplied(entry: Option<HistoryEntry>)

  /** How polling ended. */
  datatype PollResult = ImageReady(info: ImageInfo) | PollTimeout | PollError(message: string)

  /** The image of a completed entry: the first of node `9`'s images, if any. */
  function SavedImage(entry: HistoryEntry): Result<Option<ImageInfo>> {
    if entry.outputs.None? then Err("Cannot read properties of undefined (reading '9')")
    else if "9" in entry.outputs.value && entry.outputs.value["9"].images.Some? && |entry.outputs.value["9"].images.value| > 0
    then Ok(Some(entry.outputs.value["9"].images.value[0]))
    else Ok(None)
  }

  /** The largest number of history requests. */
  const MaxAttempts: nat := 60

  /**
   * Polling from attempt `k`: stop at the first completed entry, which yields its image or,
   * without one, the timeout; a failed request ends polling; after 60 attempts, the timeout.
   */
  function Poll(history: nat -> HistoryReply, k: nat): PollResult
    decreases MaxAttempts - k
  {
    if k >= MaxAttempts then PollTimeout
    else match history(k)
      case HistoryFailed(m) => PollError(m)
      case HistoryReplied(entry) =>
        if entry.Some? && entry.value.completed then
          match SavedImage(entry.value)
          case Err(m) => PollError(m)
          case Ok(image) => if image.Some? then ImageReady(image.value) else PollTimeout
        else Poll(history, k + 1)
  }

  /** Only the first 60 answers matter: two histories that agree on them poll alike. */
  lemma {:induction false} PollReadsFirstSixty(h1: nat -> HistoryReply, h2: nat -> HistoryReply, k: nat)
    requires forall j :: k <= j < MaxAttempts ==> h1(j) == h2(j)
    ensures Poll(h1, k) == Poll(h2, k)
    decreases MaxAttempts - k
  {
    if k < MaxAttempts {
      PollReadsFirstSixty(h1, h2, k + 1);
    }
  }

  /** A completed entry without an image ends polling with the timeout, not with a retry. */
  lemma {:induction false} CompletedWithoutImageTimesOut(history: nat -> HistoryReply, k: nat, j: nat)
    requires k <= j < MaxAttempts
    requires forall i :: k <= i < j ==> history(i).HistoryReplied? &&
                                        (history(i).entry.None? || !history(i).entry.value.completed)
    requires history(j).HistoryReplied? && history(j).entry.Some? && history(j).entry.value.completed
    requires SavedImage(history(j).entry.value) == Ok(None)
    ensures Poll(history, k) == PollTimeout
    decreases j - k
  {
    if k < j {
      CompletedWithoutImageTimesOut(history, k + 1, j);
    }
  }

  /** An image is found only at some attempt below 60 whose entry is complete and holds it. */
  lemma {:induction false} ReadyMeansCompleted(history: nat -> HistoryReply, k: nat)
    requires Poll(history, k).ImageReady?
    ensures exists j :: k <= j < MaxAttempts && history(j).HistoryReplied? && history(j).entry.Some? &&
                        history(j).entry.value.completed &&
                        SavedImage(history(j).entry.value) == Ok(Some(Poll(history, k).info))
    decreases MaxAttempts - k
  {
    var e := history(k).entry;
    if !(e.Some? && e.value.completed) {
      ReadyMeansCompleted(history, k + 1);
    }
  }

  /** A history that never completes times out. */
  lemma {:induction false} NeverCompletedTimesOut(history: nat -> HistoryReply, k: nat)
    requires forall i :: k <= i < MaxAttempts ==> history(i) == HistoryReplied(None)
    ensures Poll(history, k) == PollTimeout
    decreases MaxAttempts - k
  {
    if k < MaxAttempts {
      NeverCompletedTimesOut(history, k + 1);
    }
  }

  // ---------------------------------------------------------------------------
  // Remote answers

  /** The answer to A1111's `POST /sdapi/v1/txt2img`: the decoded `images`, when present. */
  datatype A1111Reply = A1111Failed(message: string) | A1111Replied(images: Option<seq<seq<bv8>>>)

  /** The answer to ComfyUI's `POST /prompt`. */
  datatype QueueReply = QueueFailed(message: string) | Queued(promptId: string)

  /** The answer to a download of an image. */
  datatype DownloadReply = DownloadFailed(message: string) | Downloaded(bytes: seq<bv8>)

  /** A backend's effect on the files and what it returned or threw. */
  datatype ImageRun = ImageRun(files: map<string, FileData>, result: Result<string>)

  /** The view URL of a saved image. */
  function ViewUrl(apiUrl: string, info: ImageInfo): string {
    apiUrl + "/view?filename=" + info.filename + "&subfolder=" + info.subfolder + "&type=" + info.kind
  }

  /** `temp/images` under the working directory. */
  function ImagesDir(root: string): string {
    PathJoin(PathJoin(root, "temp"), "images")
  }

  /** `temp/images/scene_<i>.png`. */
  function SceneImagePath(root: string, sceneIndex: nat): string {
    PathJoin(ImagesDir(root), "scene_" + NatToString(sceneIndex) + ".png")
  }

  /** `assets/placeholder.png` under the working directory. */
  function PlaceholderSource(root: string): string {
    PathJoin(PathJoin(root, "assets"), "placeholder.png")
  }

  /** The files after the placeholder step: a copy of the placeholder if it is a file, else an empty file unless the path is a directory. */
  function PlaceholderFiles(files: map<string, FileData>, dirs: set<string>, source: string, outputPath: string): map<string, FileData> {
    if source in files then files[outputPath := files[source]]
    else if source in dirs then files
    else files[outputPath := Binary([])]
  }

  /** The placeholder step fails only when the placeholder path is a directory; otherwise the output exists. */
  lemma PlaceholderWritten(files: map<string, FileData>, dirs: set<string>, source: string, outputPath: string)
    requires source in files || source !in dirs
    ensures outputPath in PlaceholderFiles(files, dirs, source, outputPath)
    ensures source in files ==> PlaceholderFiles(files, dirs, source, outputPath)[outputPath] == files[source]
    ensures source !in files ==> PlaceholderFiles(files, dirs, source, outputPath)[outputPath] == Binary([])
  {
  }

  /**
   * The image front-end. `root` is the working directory, `moduleDir` the directory of the
   * front-end's own source (where `localSD.py` and `sd_env` live); the environment
   * variables are the optional strings, the remote sides the oracles.
   */
  class ImageService {
    const root: string
    const moduleDir: string
    const fs: FileSystem
    const apiType: Option<string>
    const a1111Env: Option<string>
    const comfyEnv: Option<string>
    const sdRun: SdCommand -> SdOutcome
    const a1111Post: (string, string) -> A1111Reply
    const comfyQueue: (string, string) -> QueueReply
    const comfyHistory: (string, string, nat) -> HistoryReply
    const download: string -> DownloadReply

    constructor (root: string, moduleDir: string, fs: FileSystem, apiType: Option<string>,
                 a1111Env: Option<string>, comfyEnv: Option<string>,
                 sdRun: SdCommand -> SdOutcome, a1111Post: (string, string) -> A1111Reply,
                 comfyQueue: (string, string) -> QueueReply, comfyHistory: (string, string, nat) -> HistoryReply,
                 download: string -> DownloadReply)
      ensures this.root == root && this.moduleDir == moduleDir && this.fs == fs && this.apiType == apiType
      ensures this.a1111Env == a1111Env && this.comfyEnv == comfyEnv && this.sdRun == sdRun
      ensures this.a1111Post == a1111Post && this.comfyQueue == comfyQueue
      ensures this.comfyHistory == comfyHistory && this.download == download
    {
      this.root := root;
      this.moduleDir := moduleDir;
      this.fs := fs;
      this.apiType := apiType;
      this.a1111Env := a1111Env;
      this.comfyEnv := comfyEnv;
      this.sdRun := sdRun;
      this.a1111Post := a1111Post;
      this.comfyQueue := comfyQueue;
      this.comfyHistory := comfyHistory;
      this.download := download;
    }

    function A1111Url(): string {
      EnvOr(a1111Env, "http://127.0.0.1:7860")
    }

    function ComfyUrl(): string {
      EnvOr(comfyEnv, "http://127.0.0.1:8188")
    }

    /** The interpreter: the virtual environment's `python3` when it exists, else `python3`. */
    function SdCommandFor(files: map<string, FileData>, dirs: set<string>, prompt: string, outputPath: string): SdCommand {
      var venv := PathJoin(PathJoin(PathJoin(moduleDir, "sd_env"), "bin"), "python3");
      var python := if venv in files || venv in dirs then venv else "python3";
      SdCommand(python, PathJoin(moduleDir, "localSD.py"), prompt, outputPath)
    }

    /** `generateWithLocalSD`: run the script, then insist that the output path exists. */
    function LocalSdRun(files: map<string, FileData>, dirs: set<string>, prompt: string, outputPath: string): ImageRun {
      match sdRun(SdCommandFor(files, dirs, prompt, outputPath))
      case SdFailed(m) => ImageRun(files, Err("Local SD image generation failed: " + m))
      case SdExited(image) =>
        var after := if image.Some? then files[outputPath := Binary(image.value)] else files;
        if outputPath in after || outputPath in dirs then ImageRun(after, Ok(outputPath))
        else ImageRun(after, Err("Local SD image generation failed: Image file was not created"))
    }

    /** `generateWithA1111`: write the first returned image; none at all is an error. */
    function A1111Run(files: map<string, FileData>, prompt: string, outputPath: string): ImageRun {
      match a1111Post(A1111Url() + "/sdapi/v1/txt2img", prompt)
      case A1111Failed(m) => ImageRun(files, Err("A1111 image generation failed: " + m))
      case A1111Replied(images) =>
        if images.None? || |images.value| == 0 then ImageRun(files, Err("A1111 image generation failed: No images returned from A1111 API"))
        else ImageRun(files[outputPath := Binary(images.value[0])], Ok(outputPath))
    }

    /** The history of one queued prompt, attempt by attempt. */
    function HistoryOf(promptId: string): nat -> HistoryReply {
      (k: nat) => comfyHistory(ComfyUrl() + "/history/" + promptId, promptId, k)
    }

    /** `generateWithComfyUI`: queue, poll, download the image found. */
    function ComfyRun(files: map<string, FileData>, prompt: string, outputPath: string): ImageRun {
      match comfyQueue(ComfyUrl() + "/prompt", prompt)
      case QueueFailed(m) => ImageRun(files, Err("ComfyUI image generation failed: " + m))
      case Queued(promptId) =>
        match Poll(HistoryOf(promptId), 0)
        case PollError(m) => ImageRun(files, Err("ComfyUI image generation failed: " + m))
        case PollTimeout => ImageRun(files, Err("ComfyUI image generation failed: ComfyUI generation timeout"))
        case ImageReady(info) =>
          match download(ViewUrl(ComfyUrl(), info))
          case DownloadFailed(m) => ImageRun(files, Err("ComfyUI image generation failed: " + m))
          case Downloaded(bytes) => ImageRun(files[outputPath := Binary(bytes)], Ok(outputPath))
    }

    /** The configured backend's run. */
    function BackendRun(files: map<string, FileData>, dirs: set<string>, prompt: string, outputPath: string): ImageRun {
      match BackendOf(apiType)
      case ComfyUI => ComfyRun(files, prompt, outputPath)
      case A1111 => A1111Run(files, prompt, outputPath)
      case LocalSD => LocalSdRun(files, dirs, prompt, outputPath)
    }

    /** What every backend run promises: `run` returns the output path, which then exists, or fails; it touches no other file. */
    predicate RunShape(run: ImageRun, files: map<string, FileData>, dirs: set<string>, outputPath: string) {
      (run.result.Ok? ==> run.result.value == outputPath && (outputPath in run.files || outputPath in dirs)) &&
      run.files.Keys <= files.Keys + {outputPath} &&
      (forall p :: p in files && p != outputPath ==> p in run.files && run.files[p] == files[p])
    }

    lemma LocalSdShape(files: map<string, FileData>, dirs: set<string>, prompt: string, outputPath: string)
      ensures RunShape(LocalSdRun(files, dirs, prompt, outputPath), files, dirs, outputPath)
    {
    }

    lemma A1111Shape(files: map<string, FileData>, prompt: string, outputPath: string)
      ensures var run := A1111Run(files, prompt, outputPath);
              RunShape(run, files, {}, outputPath) && (run.result.Err? ==> run.files == files)
    {
    }

    lemma ComfyShape(files: map<string, FileData>, prompt: string, outputPath: string)
      ensures var run := ComfyRun(files, prompt, outputPath);
              RunShape(run, files, {}, outputPath) && (run.result.Err? ==> run.files == files)
    {
    }

    /** A backend that succeeds returns the output path, which then exists; only the local one can leave a file behind on failure. */
    lemma BackendResult(files: map<string, FileData>, dirs: set<string>, prompt: string, outputPath: string)
      ensures RunShape(BackendRun(files, dirs, prompt, outputPath), files, dirs, outputPath)
      ensures var run := BackendRun(files, dirs, prompt, outputPath);
              run.result.Err? && BackendOf(apiType) != LocalSD ==> run.files == files
    {
      match BackendOf(apiType)
      case ComfyUI => ComfyShape(files, prompt, outputPath);
      case A1111 => A1111Shape(files, prompt, outputPath);
      case LocalSD => LocalSdShape(files, dirs, prompt, outputPath);
    }

    /** Only the local backend reads the disk, and only to pick the interpreter and to look for the output. */
    lemma RemoteBackendsIgnoreDisk(files: map<string, FileData>, d1: set<string>, d2: set<string>, prompt: string, outputPath: string)
      requires BackendOf(apiType) != LocalSD
      ensures BackendRun(files, d1, prompt, outputPath) == BackendRun(files, d2, prompt, outputPath)
    {
    }

    /** The poll loop of `generateWithComfyUI`: at most 60 history requests. */
    method PollHistory(promptId: string) returns (r: PollResult)
      ensures r == Poll(HistoryOf(promptId), 0)
    {
      var history := HistoryOf(promptId);
      var completed := false;
      var attempts := 0;
      while !completed && attempts < MaxAttempts
        invariant 0 <= attempts <= MaxAttempts
        invariant !completed ==> Poll(history, 0) == Poll(history, attempts)
        invariant completed ==> Poll(history, 0) == PollTimeout
        decreases MaxAttempts - attempts, if completed then 0 else 1
      {
        var reply := history(attempts);
        if reply.HistoryFailed? {
          return PollError(reply.message);
        }
        if reply.entry.Some? && reply.entry.value.completed {
          completed := true;
          var image := SavedImage(reply.entry.value);
          if image.Err? {
            return PollError(image.error);
          }
          if image.value.Some? {
            return ImageReady(image.value.value);
          }
        }
        attempts := attempts + 1;
      }
      r := PollTimeout;
    }

    method GenerateWithComfyUI(prompt: string, outputPath: string) returns (r: Result<string>)
      modifies fs
      ensures ImageRun(fs.files, r) == ComfyRun(old(fs.files), prompt, outputPath)
      ensures fs.dirs == old(fs.dirs)
    {
      var queued := comfyQueue(ComfyUrl() + "/prompt", prompt);
      if queued.QueueFailed? {
        return Err("ComfyUI image generation failed: " + queued.message);
      }
      var polled := PollHistory(queued.promptId);
      match polled
      case PollError(m) =>
        r := Err("ComfyUI image generation failed: " + m);
      case PollTimeout =>
        r := Err("ComfyUI image generation failed: ComfyUI generation timeout");
      case ImageReady(info) =>
        var fetched := download(ViewUrl(ComfyUrl(), info));
        if fetched.DownloadFailed? {
          return Err("ComfyUI image generation failed: " + fetched.message);
        }
        fs.WriteFile(outputPath, Binary(fetched.bytes));
        r := Ok(outputPath);
    }

    method GenerateWithA1111(prompt: string, outputPath: string) returns (r: Result<string>)
      modifies fs
      ensures ImageRun(fs.files, r) == A1111Run(old(fs.files), prompt, outputPath)
      ensures fs.dirs == old(fs.dirs)
    {
      var reply := a1111Post(A1111Url() + "/sdapi/v1/txt2img", prompt);
      if reply.A1111Failed? {
        return Err("A1111 image generation failed: " + reply.message);
      }
      if reply.images.None? || |reply.images.value| == 0 {
        return Err("A1111 image generation failed: No images returned from A1111 API");
      }
      fs.WriteFile(outputPath, Binary(reply.images.value[0]));
      r := Ok(outputPath);
    }

    method GenerateWithLocalSD(prompt: string, outputPath: string) returns (r: Result<string>)
      modifies fs
      ensures ImageRun(fs.files, r) == LocalSdRun(old(fs.files), old(fs.dirs), prompt, outputPath)
      ensures fs.dirs == old(fs.dirs)
    {
      var command := SdCommandFor(fs.files, fs.dirs, prompt, outputPath);
      var run := sdRun(command);
      if run.SdFailed? {
        return Err("Local SD image generation failed: " + run.message);
      }
      if run.image.Some? {
        fs.WriteFile(outputPath, Binary(run.image.value));
      }
      if !fs.Exists(outputPath) {
        return Err("Local SD image generation failed: Image file was not created");
      }
      r := Ok(outputPath);
    }

    /** The dispatch of `generateSceneImage` on the configured backend. */
    method GenerateWithBackend(prompt: string, outputPath: string) returns (r: Result<string>)
      modifies fs
      ensures ImageRun(fs.files, r) == BackendRun(old(fs.files), old(fs.dirs), prompt, outputPath)
      ensures fs.dirs == old(fs.dirs)
    {
      match BackendOf(apiType)
      case ComfyUI =>
        r := GenerateWithComfyUI(prompt, outputPath);
      case A1111 =>
        r := GenerateWithA1111(prompt, outputPath);
      case LocalSD =>
        r := GenerateWithLocalSD(prompt, outputPath);
    }

    /** `createPlaceholderImage`: copy the placeholder if it exists, else write an empty file. */
    method CreatePlaceholderImage(outputPath: string) returns (r: Result<string>)
      modifies fs
      ensures fs.files == PlaceholderFiles(old(fs.files), old(fs.dirs), PlaceholderSource(root), outputPath)
      ensures r.Ok? <==> PlaceholderSource(root) in old(fs.files) || PlaceholderSource(root) !in old(fs.dirs)
      ensures r.Ok? ==> r.value == outputPath
      ensures fs.dirs == old(fs.dirs)
    {
      var source := PlaceholderSource(root);
      if fs.Exists(source) {
        var copied := fs.CopyFile(source, outputPath);
        if copied.Fail? {
          return Err(copied.error);
        }
      } else {
        fs.WriteFile(outputPath, Binary([]));
      }
      r := Ok(outputPath);
    }

    /** The directories after `temp/images` is made when missing. */
    function DirsWithImages(files: map<string, FileData>, dirs: set<string>): set<string> {
      if ImagesDir(root) in files || ImagesDir(root) in dirs then dirs else dirs + {ImagesDir(root)}
    }

    /** The `try`/`catch` of `generateSceneImage`: the backend's image, or the placeholder when it fails. */
    method GenerateImageAt(prompt: string, outputPath: string) returns (r: Result<string>)
      modifies fs
      ensures fs.dirs == old(fs.dirs)
      ensures var run := BackendRun(old(fs.files), old(fs.dirs), prompt, outputPath);
              (run.result.Ok? ==> r == Ok(outputPath) && fs.files == run.files) &&
              (run.result.Err? ==> fs.files == PlaceholderFiles(run.files, fs.dirs, PlaceholderSource(root), outputPath) &&
                                   (r.Ok? <==> PlaceholderSource(root) in run.files || PlaceholderSource(root) !in fs.dirs) &&
                                   (r.Ok? ==> r.value == outputPath))
    {
      var generated := GenerateWithBackend(prompt, outputPath);
      if generated.Ok? {
        BackendResult(old(fs.files), old(fs.dirs), prompt, outputPath);
        return generated;
      }
      r := CreatePlaceholderImage(outputPath);
    }

    /**
     * `generateSceneImage(sceneText, sceneIndex, style)`: the configured backend writes
     * `temp/images/scene_<i>.png`; any backend failure is replaced by the placeholder.
     * Only a failing copy from a placeholder path that is a directory escapes.
     */
    method GenerateSceneImage(sceneText: string, sceneIndex: nat, style: Option<string>) returns (r: Result<string>)
      modifies fs
      ensures fs.dirs == DirsWithImages(old(fs.files), old(fs.dirs))
      ensures var out := SceneImagePath(root, sceneIndex);
              var run := BackendRun(old(fs.files), fs.dirs, BuildPrompt(sceneText, style), out);
              (run.result.Ok? ==> r == Ok(out) && fs.files == run.files) &&
              (run.result.Err? ==> fs.files == PlaceholderFiles(run.files, fs.dirs, PlaceholderSource(root), out) &&
                                   (r.Ok? <==> PlaceholderSource(root) in run.files || PlaceholderSource(root) !in fs.dirs) &&
                                   (r.Ok? ==> r.value == out))
    {
      var outputDir := ImagesDir(root);
      if !fs.Exists(outputDir) {
        fs.MakeDir(outputDir);
      }
      var outputPath := SceneImagePath(root, sceneIndex);
      var prompt := BuildPrompt(sceneText, style);
      r := GenerateImageAt(prompt, outputPath);
    }
  }
}

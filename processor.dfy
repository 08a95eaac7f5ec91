/**
 * The worker's job handler, `processVideoGeneration`: it loads the job document, marks it
 * processing, splits the text into scenes, generates an image and then a voice-over for
 * every scene, saves the scene summary, renders and uploads the video, and marks the job
 * completed, reporting progress on the document after every step. Any failure marks the
 * job failed and is passed on to the queue.
 *
 * Progress is computed with exact rational arithmetic, and the pauses between provider
 * calls are recorded on a timeline rather than waited out.
 */
module Processor {
  import opened Wrappers
  import opened JsText
  import opened JobModel
  import opened SceneSplitter
  import ImageGenerator
  import TtsGenerator
  import RenderService

  // Progress

  /** `Math.round(x)`: the nearest integer, halves rounded up. */
  function Round(x: real): (r: int)
    ensures (r as real) - 0.5 <= x < (r as real) + 0.5
  {
    (x + 0.5).Floor
  }

  /** `Math.round(base + (i + 1) * (25 / n))`: the value reported after scene `i` of `n`. */
  function SceneProgress(base: int, i: nat, n: nat): (p: int)
    requires i < n
    ensures base <= p <= base + 25
    ensures i == n - 1 ==> p == base + 25
  {
    var x := ((i + 1) as real) * (25.0 / (n as real));
    assert 0.0 < x <= 25.0 by {
      assert ((i + 1) as real) <= (n as real);
      assert (n as real) * (25.0 / (n as real)) == 25.0;
    }
    assert i == n - 1 ==> x == 25.0 by {
      assert (n as real) * (25.0 / (n as real)) == 25.0;
    }
    Round((base as real) + x)
  }

  lemma RoundMonotone(x: real, y: real)
    requires x <= y
    ensures Round(x) <= Round(y)
  {
  }

  /** A later scene never reports less progress than an earlier one. */
  lemma SceneProgressMonotone(base: int, i: nat, j: nat, n: nat)
    requires i <= j < n
    ensures SceneProgress(base, i, n) <= SceneProgress(base, j, n)
  {
    var c := 25.0 / (n as real);
    var xi := ((i + 1) as real) * c;
    var xj := ((j + 1) as real) * c;
    assert xi <= xj by {
      assert c > 0.0;
      assert xj - xi == ((j - i) as real) * c;
    }
    RoundMonotone((base as real) + xi, (base as real) + xj);
  }

  /** The values reported after the first `k` scenes of a stage starting at `base`. */
  function StageValues(base: int, n: nat, k: nat): (vs: seq<int>)
    requires k <= n
    ensures |vs| == k
  {
    if k == 0 then [] else StageValues(base, n, k - 1) + [SceneProgress(base, k - 1, n)]
  }

  lemma {:induction false} StageValuesAt(base: int, n: nat, k: nat, i: nat)
    requires i < k <= n
    ensures StageValues(base, n, k)[i] == SceneProgress(base, i, n)
  {
    if i < k - 1 {
      StageValuesAt(base, n, k - 1, i);
    }
  }

  predicate NonDecreasing(s: seq<int>) {
    forall i, j :: 0 <= i < j < |s| ==> s[i] <= s[j]
  }

  /** A stage's values never decrease, stay within 25 of its base and end 25 above it. */
  lemma StageValuesShape(base: int, n: nat)
    requires n >= 1
    ensures NonDecreasing(StageValues(base, n, n))
    ensures forall i :: 0 <= i < n ==> base <= StageValues(base, n, n)[i] <= base + 25
    ensures StageValues(base, n, n)[n - 1] == base + 25
  {
    var vs := StageValues(base, n, n);
    forall i | 0 <= i < n
      ensures vs[i] == SceneProgress(base, i, n)
    {
      StageValuesAt(base, n, n, i);
    }
    forall i, j | 0 <= i < j < n
      ensures vs[i] <= vs[j]
    {
      SceneProgressMonotone(base, i, j, n);
    }
  }

  lemma NonDecreasingAppend(a: seq<int>, b: seq<int>)
    requires NonDecreasing(a) && NonDecreasing(b)
    requires a != [] && b != [] ==> a[|a| - 1] <= b[0]
    ensures NonDecreasing(a + b)
  {
    var s := a + b;
    forall i, j | 0 <= i < j < |s|
      ensures s[i] <= s[j]
    {
      if j < |a| {
        assert s[i] == a[i] && s[j] == a[j];
      } else if i >= |a| {
        assert s[i] == b[i - |a|] && s[j] == b[j - |a|];
      } else {
        assert s[i] == a[i] <= a[|a| - 1];
        assert s[j] == b[j - |a|] >= b[0];
      }
    }
  }

  /**
   * Every progress value the job's saves carry for `n` scenes, from the first progress
   * update on: 10 and 15, one value per image, 40, one value per voice-over, then the
   * scene-summary save, 65, 95, the completion's 100 and the final save.
   */
  function ProgressTrail(n: nat): seq<int>
    requires n >= 1
  {
    [10, 15] + StageValues(15, n, n) + [40] + StageValues(40, n, n) + [65, 65, 95, 100, 100]
  }

  /**
   * The reported progress never goes down and ends at 100; the last image update reports
   * exactly 40 and the last voice-over update exactly 65.
   */
  lemma ProgressTrailShape(n: nat)
    requires n >= 1
    ensures NonDecreasing(ProgressTrail(n))
    ensures ProgressTrail(n)[|ProgressTrail(n)| - 1] == 100
    ensures ProgressTrail(n)[n + 1] == 40 && ProgressTrail(n)[2 * n + 2] == 65
  {
    StageValuesShape(15, n);
    StageValuesShape(40, n);
    var images := StageValues(15, n, n);
    var voices := StageValues(40, n, n);
    NonDecreasingAppend([10, 15], images);
    NonDecreasingAppend([10, 15] + images, [40]);
    NonDecreasingAppend([10, 15] + images + [40], voices);
    NonDecreasingAppend([10, 15] + images + [40] + voices, [65, 65, 95, 100, 100]);
  }

  /** The progress value of every saved record, in order. */
  function Progresses(h: seq<JobRecord>): (ps: seq<int>)
    ensures |ps| == |h|
  {
    if h == [] then [] else Progresses(h[..|h| - 1]) + [h[|h| - 1].progress]
  }

  lemma ProgressesSnoc(h: seq<JobRecord>, r: JobRecord)
    ensures Progresses(h + [r]) == Progresses(h) + [r.progress]
  {
    assert (h + [r])[..|h|] == h;
  }

  /** The step text of image or voice-over `i` of `n`: `Generated image 2/5`. */
  function StepText(what: string, i: nat, n: nat): string {
    "Generated " + what + " " + NatToString(i + 1) + "/" + NatToString(n)
  }

  // Provider calls and pauses

  datatype Kind = ImageCall | AudioCall

  /** A provider call for scene `index`, or a `setTimeout` pause of `ms` milliseconds. */
  datatype Event = Call(kind: Kind, index: nat) | Pause(ms: nat)

  /** What the first `k` iterations of a stage loop over `n` scenes do: call, then pause unless last. */
  function LoopEvents(kind: Kind, ms: nat, n: nat, k: nat): (es: seq<Event>)
    requires k <= n
  {
    if k == 0 then []
    else LoopEvents(kind, ms, n, k - 1) + [Call(kind, k - 1)] + (if k < n then [Pause(ms)] else [])
  }

  /** The pauses in `es`. */
  function PauseCount(es: seq<Event>): nat {
    if es == [] then 0 else PauseCount(es[..|es| - 1]) + (if es[|es| - 1].Pause? then 1 else 0)
  }

  /** The scene indices of the calls in `es`, in order. */
  function CallOrder(es: seq<Event>): seq<nat> {
    if es == [] then []
    else CallOrder(es[..|es| - 1]) + (if es[|es| - 1].Call? then [es[|es| - 1].index] else [])
  }

  /** The indices `0 .. k - 1`. */
  function Upto(k: nat): (r: seq<nat>)
    ensures |r| == k && forall i :: 0 <= i < k ==> r[i] == i
  {
    if k == 0 then [] else Upto(k - 1) + [k - 1]
  }

  lemma CountSnoc(es: seq<Event>, e: Event)
    ensures PauseCount(es + [e]) == PauseCount(es) + (if e.Pause? then 1 else 0)
    ensures CallOrder(es + [e]) == CallOrder(es) + (if e.Call? then [e.index] else [])
  {
    assert (es + [e])[..|es|] == es;
  }

  lemma {:induction false} LoopEventsPrefix(kind: Kind, ms: nat, n: nat, k: nat)
    requires k <= n
    ensures PauseCount(LoopEvents(kind, ms, n, k)) == (if k == 0 || k < n then k else k - 1)
    ensures CallOrder(LoopEvents(kind, ms, n, k)) == Upto(k)
  {
    if k > 0 {
      LoopEventsPrefix(kind, ms, n, k - 1);
      var es := LoopEvents(kind, ms, n, k - 1);
      var called := es + [Call(kind, k - 1)];
      CountSnoc(es, Call(kind, k - 1));
      if k < n {
        assert LoopEvents(kind, ms, n, k) == called + [Pause(ms)];
        CountSnoc(called, Pause(ms));
      } else {
        assert LoopEvents(kind, ms, n, k) == called;
      }
    }
  }

  lemma {:induction false} LoopEventsKinds(kind: Kind, ms: nat, n: nat, k: nat)
    requires k <= n
    ensures forall e :: e in LoopEvents(kind, ms, n, k) ==> e == Pause(ms) || (e.Call? && e.kind == kind)
  {
    if k > 0 {
      LoopEventsKinds(kind, ms, n, k - 1);
    }
  }

  /**
   * A stage over `n >= 1` scenes calls the provider once per scene in index order, with
   * exactly `n - 1` pauses of `ms` and none after the last call.
   */
  lemma LoopEventsShape(kind: Kind, ms: nat, n: nat)
    requires n >= 1
    ensures PauseCount(LoopEvents(kind, ms, n, n)) == n - 1
    ensures CallOrder(LoopEvents(kind, ms, n, n)) == Upto(n)
    ensures LoopEvents(kind, ms, n, n)[|LoopEvents(kind, ms, n, n)| - 1] == Call(kind, n - 1)
    ensures forall e :: e in LoopEvents(kind, ms, n, n) ==> e == Pause(ms) || (e.Call? && e.kind == kind)
  {
    LoopEventsPrefix(kind, ms, n, n);
    LoopEventsKinds(kind, ms, n, n);
    assert LoopEvents(kind, ms, n, n) == LoopEvents(kind, ms, n, n - 1) + [Call(kind, n - 1)] + [];
  }

  /** The whole run's calls: every image call comes before the first voice-over call. */
  lemma ImagesBeforeVoices(n: nat, p: nat, q: nat)
    requires n >= 1
    requires p < q < |LoopEvents(ImageCall, 1000, n, n) + LoopEvents(AudioCall, 500, n, n)|
    ensures var es := LoopEvents(ImageCall, 1000, n, n) + LoopEvents(AudioCall, 500, n, n);
      es[p].Call? && es[p].kind == AudioCall && es[q].Call? ==> es[q].kind == AudioCall
  {
    var images := LoopEvents(ImageCall, 1000, n, n);
    var voices := LoopEvents(AudioCall, 500, n, n);
    LoopEventsKinds(ImageCall, 1000, n, n);
    LoopEventsKinds(AudioCall, 500, n, n);
    var es := images + voices;
    if p < |images| {
      assert es[p] == images[p] && images[p] in images;
    } else {
      assert es[q] == voices[q - |images|] && voices[q - |images|] in voices;
    }
  }

  // The in-memory scenes

  /** `job.data` as the queue delivers it. */
  datatype JobData = JobData(jobId: string, text: string, voiceId: Option<string>, imageStyle: Option<string>,
                             musicEnabled: Option<bool>, subtitlesEnabled: Option<bool>)

  /** One element of the worker's `scenes` array; a `duration` of `None` is `NaN`. */
  datatype WorkScene = WorkScene(sceneIndex: nat, text: string, imagePath: string,
                                 audioPath: Option<string>, duration: Option<nat>)

  /** The array after the image loop: scene `i` holds text `i` and the image file for index `i`. */
  predicate Imaged(scenes: seq<WorkScene>, texts: seq<string>, root: string) {
    |scenes| == |texts| &&
    forall i :: 0 <= i < |scenes| ==> scenes[i] == WorkScene(i, texts[i], ImageGenerator.SceneImagePath(root, i), None, Some(0))
  }

  /** The array after the voice-over loop: only audio paths and durations changed, audio `i` at index `i`. */
  predicate Voiced(after: seq<WorkScene>, before: seq<WorkScene>, root: string) {
    |after| == |before| &&
    forall i :: 0 <= i < |after| ==>
      after[i] == before[i].(audioPath := Some(TtsGenerator.SceneAudioPath(root, i)), duration := after[i].duration)
  }

  /** Every duration is a number, as the job schema's `Number` cast needs. */
  predicate AllTimed(scenes: seq<WorkScene>) {
    forall i :: 0 <= i < |scenes| ==> scenes[i].duration.Some?
  }

  /** `scenes.map(s => ({ sceneIndex, text, duration }))` as the job schema stores it. */
  function Summary(scenes: seq<WorkScene>): (entries: seq<SceneEntry>)
    requires AllTimed(scenes)
    ensures |entries| == |scenes|
    ensures forall i :: 0 <= i < |scenes| ==>
      entries[i] == SceneEntry(scenes[i].sceneIndex, scenes[i].text, None, None, scenes[i].duration.value)
  {
    seq(|scenes|, i requires 0 <= i < |scenes| =>
      SceneEntry(scenes[i].sceneIndex, scenes[i].text, None, None, scenes[i].duration.value))
  }

  /** What `renderVideo` reads of a finished scene. */
  function RenderScenes(scenes: seq<WorkScene>): (rs: seq<RenderService.RenderScene>)
    requires forall i :: 0 <= i < |scenes| ==> scenes[i].audioPath.Some? && scenes[i].duration.Some?
    ensures |rs| == |scenes|
    ensures forall i :: 0 <= i < |scenes| ==>
      rs[i] == RenderService.RenderScene(scenes[i].imagePath, scenes[i].audioPath.value, scenes[i].text,
                                         scenes[i].duration.value)
  {
    seq(|scenes|, i requires 0 <= i < |scenes| =>
      RenderService.RenderScene(scenes[i].imagePath, scenes[i].audioPath.value, scenes[i].text,
                                scenes[i].duration.value))
  }

  /**
   * `{ ...jobDoc.metadata, ...renderResult.metadata }` for a probe that gave a size; the
   * schema has no `duration` there. A `NaN` size never gets this far: `Complete` fails.
   */
  function MergedMetadata(m: Metadata, info: RenderService.RenderInfo): (m': Metadata)
    requires info.fileSize.Some?
    ensures m'.resolution == info.resolution && m'.totalScenes == Some(info.totalScenes as int)
    ensures m'.fileSize == Some(info.fileSize.value as int)
    ensures m'.fps == m.fps && m'.width == m.width && m'.height == m.height
  {
    m.(resolution := info.resolution, fileSize := Some(info.fileSize.value as int), totalScenes := Some(info.totalScenes as int))
  }

  /** What the handler returns to the queue. */
  datatype ProcessResult = ProcessResult(success: bool, jobId: string, videoUrl: string)

  const NotFound := "Job document not found"

  /** The stored record under `jobId` exists and would pass validation. */
  predicate StoredValid(store: JobStore, jobId: string)
    reads store
  {
    jobId in store.records && Validate(store.records[jobId]).Pass?
  }

  /** The pauses and provider calls of a run, in order. */
  class Timeline {
    ghost var events: seq<Event>

    constructor ()
      ensures events == []
    {
      events := [];
    }

    /** `await new Promise(resolve => setTimeout(resolve, ms))`. */
    method Sleep(ms: nat)
      modifies this
      ensures events == old(events) + [Pause(ms)]
    {
      events := events + [Pause(ms)];
    }
  }

  // The handler, stage by stage

  /**
   * Lines 54-64: `Job.findOne({ jobId })`, which throws when there is none; then the
   * status becomes `processing` and is saved before the first progress update.
   */
  method Begin(store: JobStore, jobId: string) returns (doc: JobDoc?, o: Outcome)
    requires store.Keyed()
    modifies store
    ensures store.Keyed()
    ensures o.Pass? <==> doc != null
    ensures jobId !in old(store.records) ==>
      o == Fail(NotFound) && store.records == old(store.records) && store.history == old(store.history)
    ensures jobId in old(store.records) ==>
      var started := old(store.records)[jobId].(status := Processing);
      o == Validate(started) &&
      (o.Fail? ==> store.records == old(store.records) && store.history == old(store.history)) &&
      (o.Pass? ==> fresh(doc) && doc.store == store && Synced(doc) &&
                   doc.rec == WithProgress(started, 10, "Splitting text into scenes") &&
                   doc.rec.jobId == jobId &&
                   store.history == old(store.history) + [started, doc.rec] &&
                   store.records == old(store.records)[jobId := doc.rec])
  {
    doc := store.FindOne(jobId);
    if doc == null {
      o := Fail(NotFound);
      return;
    }
    doc.rec := doc.rec.(status := Processing);
    o := doc.Save();
    if o.Fail? {
      doc := null;
      return;
    }
    ProgressSaveIff(doc.rec, 10, "Splitting text into scenes");
    var saved := doc.UpdateProgress(10, "Splitting text into scenes");
    assert saved.Pass?;
  }

  /** `generateSceneImage(sceneText, i, imageStyle)`: on success, the image file of index `i`. */
  method SceneImage(images: ImageGenerator.ImageService, text: string, i: nat, style: Option<string>)
    returns (r: Result<string>)
    modifies images.fs
    ensures r.Ok? ==> r.value == ImageGenerator.SceneImagePath(images.root, i)
  {
    r := images.GenerateSceneImage(text, i, style);
  }

  /** The document's record is the stored one, valid, in a store keyed by `jobId`. */
  predicate Synced(doc: JobDoc)
    reads doc, doc.store
  {
    doc.store.Keyed() && doc.rec.jobId in doc.store.records &&
    doc.store.records[doc.rec.jobId] == doc.rec && Validate(doc.rec).Pass?
  }

  /** Only the progress fields of `rec` differ from `start`. */
  predicate OnlyProgress(rec: JobRecord, start: JobRecord) {
    rec == WithProgress(start, rec.progress, rec.currentStep)
  }

  /** `jobDoc.updateProgress(progress, step)` on a synced document with a value in 0..100: it saves. */
  method Report(doc: JobDoc, progress: int, step: string, ghost start: JobRecord)
    requires Synced(doc) && OnlyProgress(doc.rec, start) && 0 <= progress <= 100
    modifies doc, doc.store
    ensures Synced(doc) && OnlyProgress(doc.rec, start)
    ensures doc.rec.progress == progress && doc.rec.currentStep == step
    ensures doc.store.history == old(doc.store.history) + [doc.rec]
  {
    ProgressSaveIff(doc.rec, progress, step);
    var saved := doc.UpdateProgress(progress, step);
    assert saved.Pass?;
  }

  /** One turn of the image loop, for scene `i` of the `n = |texts|` scenes. */
  method ImageTurn(doc: JobDoc, images: ImageGenerator.ImageService, log: Timeline, texts: seq<string>,
                   style: Option<string>, i: nat, scenes: seq<WorkScene>, ghost start: JobRecord,
                   ghost h0: seq<JobRecord>, ghost e0: seq<Event>) returns (scenes': seq<WorkScene>, o: Outcome)
    requires i < |texts|
    requires Synced(doc) && OnlyProgress(doc.rec, start)
    requires |scenes| == i
    requires forall k :: 0 <= k < i ==>
      scenes[k] == WorkScene(k, texts[k], ImageGenerator.SceneImagePath(images.root, k), None, Some(0))
    requires Progresses(doc.store.history) == Progresses(h0) + [15] + StageValues(15, |texts|, i)
    requires log.events == e0 + LoopEvents(ImageCall, 1000, |texts|, i)
    modifies doc, doc.store, images.fs, log
    ensures Synced(doc) && OnlyProgress(doc.rec, start)
    ensures o.Pass? ==> doc.rec.progress == SceneProgress(15, i, |texts|)
    ensures o.Pass? ==> |scenes'| == i + 1
    ensures o.Pass? ==> forall k :: 0 <= k < i + 1 ==>
      scenes'[k] == WorkScene(k, texts[k], ImageGenerator.SceneImagePath(images.root, k), None, Some(0))
    ensures o.Pass? ==> Progresses(doc.store.history) == Progresses(h0) + [15] + StageValues(15, |texts|, i + 1)
    ensures o.Pass? ==> log.events == e0 + LoopEvents(ImageCall, 1000, |texts|, i + 1)
  {
    var n := |texts|;
    log.events := log.events + [Call(ImageCall, i)];
    var imagePath := SceneImage(images, texts[i], i, style);
    scenes' := scenes;
    if imagePath.Err? {
      o := Fail(imagePath.error);
      return;
    }
    scenes' := scenes + [WorkScene(i, texts[i], imagePath.value, None, Some(0))];
    ghost var before := doc.store.history;
    Report(doc, SceneProgress(15, i, n), StepText("image", i, n), start);
    ProgressesSnoc(before, doc.rec);
    if i < n - 1 {
      log.Sleep(1000);
    }
    o := Pass;
  }

  /**
   * Lines 71-98: report 15, then per scene generate its image, push the scene, report
   * the scene's progress and pause a second unless it is the last. A failed image throws.
   */
  method ImageStage(doc: JobDoc, images: ImageGenerator.ImageService, log: Timeline,
                    texts: seq<string>, style: Option<string>) returns (scenes: seq<WorkScene>, o: Outcome)
    requires |texts| >= 1 && Synced(doc)
    modifies doc, doc.store, images.fs, log
    ensures Synced(doc) && OnlyProgress(doc.rec, old(doc.rec))
    ensures o.Pass? ==> Imaged(scenes, texts, images.root)
    ensures o.Pass? ==> doc.rec.progress == 40
    ensures o.Pass? ==>
      Progresses(doc.store.history) == Progresses(old(doc.store.history)) + [15] + StageValues(15, |texts|, |texts|)
    ensures o.Pass? ==> log.events == old(log.events) + LoopEvents(ImageCall, 1000, |texts|, |texts|)
  {
    var n := |texts|;
    ghost var start := doc.rec;
    ghost var h0 := doc.store.history;
    ghost var e0 := log.events;
    Report(doc, 15, "Generating AI images", start);
    ProgressesSnoc(h0, doc.rec);
    scenes := [];
    var i := 0;
    o := Pass;
    while i < n
      invariant i <= n
      invariant Synced(doc) && OnlyProgress(doc.rec, start)
      invariant doc.rec.progress == if i == 0 then 15 else SceneProgress(15, i - 1, n)
      invariant Progresses(doc.store.history) == Progresses(h0) + [15] + StageValues(15, n, i)
      invariant log.events == e0 + LoopEvents(ImageCall, 1000, n, i)
      invariant |scenes| == i
      invariant forall k :: 0 <= k < i ==>
        scenes[k] == WorkScene(k, texts[k], ImageGenerator.SceneImagePath(images.root, k), None, Some(0))
    {
      scenes, o := ImageTurn(doc, images, log, texts, style, i, scenes, start, h0, e0);
      if o.Fail? {
        return;
      }
      i := i + 1;
    }
  }

  /** `generateSceneAudio(text, i, voiceId)`: on success, the voice-over file of index `i`. */
  method SceneVoice(voices: TtsGenerator.TtsService, text: string, i: nat, voiceId: Option<string>)
    returns (r: Result<TtsGenerator.SceneAudio>)
    modifies voices.fs
    ensures r.Ok? ==> r.value.audioPath == TtsGenerator.SceneAudioPath(voices.root, i)
  {
    r := voices.GenerateSceneAudio(text, i, voiceId);
  }

  /** One turn of the voice-over loop, for scene `i` of `|scenes|`. */
  method VoiceTurn(doc: JobDoc, voices: TtsGenerator.TtsService, log: Timeline, voiceId: Option<string>,
                   i: nat, scenes: seq<WorkScene>, ghost before: seq<WorkScene>, ghost start: JobRecord,
                   ghost h0: seq<JobRecord>, ghost e0: seq<Event>) returns (scenes': seq<WorkScene>, o: Outcome)
    requires i < |scenes| == |before|
    requires Synced(doc) && OnlyProgress(doc.rec, start)
    requires forall k :: 0 <= k < i ==>
      scenes[k] == before[k].(audioPath := Some(TtsGenerator.SceneAudioPath(voices.root, k)), duration := scenes[k].duration)
    requires forall k :: i <= k < |scenes| ==> scenes[k] == before[k]
    requires Progresses(doc.store.history) == Progresses(h0) + [40] + StageValues(40, |scenes|, i)
    requires log.events == e0 + LoopEvents(AudioCall, 500, |scenes|, i)
    modifies doc, doc.store, voices.fs, log
    ensures Synced(doc) && OnlyProgress(doc.rec, start)
    ensures o.Pass? ==> doc.rec.progress == SceneProgress(40, i, |scenes|)
    ensures o.Pass? ==> |scenes'| == |scenes|
    ensures o.Pass? ==> forall k :: 0 <= k < i + 1 ==>
      scenes'[k] == before[k].(audioPath := Some(TtsGenerator.SceneAudioPath(voices.root, k)), duration := scenes'[k].duration)
    ensures o.Pass? ==> forall k :: i + 1 <= k < |scenes| ==> scenes'[k] == before[k]
    ensures o.Pass? ==> Progresses(doc.store.history) == Progresses(h0) + [40] + StageValues(40, |scenes|, i + 1)
    ensures o.Pass? ==> log.events == e0 + LoopEvents(AudioCall, 500, |scenes|, i + 1)
  {
    var n := |scenes|;
    log.events := log.events + [Call(AudioCall, i)];
    var audio := SceneVoice(voices, scenes[i].text, i, voiceId);
    scenes' := scenes;
    if audio.Err? {
      o := Fail(audio.error);
      return;
    }
    scenes' := scenes[i := scenes[i].(audioPath := Some(audio.value.audioPath), duration := audio.value.duration)];
    ghost var h := doc.store.history;
    Report(doc, SceneProgress(40, i, n), StepText("audio", i, n), start);
    ProgressesSnoc(h, doc.rec);
    if i < n - 1 {
      log.Sleep(500);
    }
    o := Pass;
  }

  /**
   * Lines 101-125: report 40, then per scene generate its voice-over from the scene's
   * text, store its path and duration at the same index, report and pause half a second
   * unless it is the last. A failed voice-over throws.
   */
  method AudioStage(doc: JobDoc, voices: TtsGenerator.TtsService, log: Timeline,
                    scenes: seq<WorkScene>, voiceId: Option<string>) returns (out: seq<WorkScene>, o: Outcome)
    requires |scenes| >= 1 && Synced(doc)
    modifies doc, doc.store, voices.fs, log
    ensures Synced(doc) && OnlyProgress(doc.rec, old(doc.rec))
    ensures o.Pass? ==> Voiced(out, scenes, voices.root)
    ensures o.Pass? ==> doc.rec.progress == 65
    ensures o.Pass? ==>
      Progresses(doc.store.history) == Progresses(old(doc.store.history)) + [40] + StageValues(40, |scenes|, |scenes|)
    ensures o.Pass? ==> log.events == old(log.events) + LoopEvents(AudioCall, 500, |scenes|, |scenes|)
  {
    var n := |scenes|;
    ghost var start := doc.rec;
    ghost var h0 := doc.store.history;
    ghost var e0 := log.events;
    Report(doc, 40, "Generating TTS audio", start);
    ProgressesSnoc(h0, doc.rec);
    out := scenes;
    var i := 0;
    o := Pass;
    while i < n
      invariant i <= n && |out| == n
      invariant Synced(doc) && OnlyProgress(doc.rec, start)
      invariant doc.rec.progress == if i == 0 then 40 else SceneProgress(40, i - 1, n)
      invariant Progresses(doc.store.history) == Progresses(h0) + [40] + StageValues(40, n, i)
      invariant log.events == e0 + LoopEvents(AudioCall, 500, n, i)
      invariant forall k :: 0 <= k < i ==>
        out[k] == scenes[k].(audioPath := Some(TtsGenerator.SceneAudioPath(voices.root, k)), duration := out[k].duration)
      invariant forall k :: i <= k < n ==> out[k] == scenes[k]
    {
      out, o := VoiceTurn(doc, voices, log, voiceId, i, out, scenes, start, h0, e0);
      if o.Fail? {
        return;
      }
      i := i + 1;
    }
  }

  /** The save's complaint when a duration is `NaN`, which the schema's `Number` cast refuses. */
  const NotANumber := "Job validation failed: scenes: Cast to Number failed for value NaN"

  /**
   * Lines 128-134: store the scene summary and the scene count, then save. A `NaN`
   * duration makes the save reject.
   */
  method PersistScenes(doc: JobDoc, scenes: seq<WorkScene>) returns (o: Outcome)
    requires Synced(doc)
    modifies doc, doc.store
    ensures Synced(doc)
    ensures o.Pass? <==> AllTimed(scenes)
    ensures o.Pass? ==>
      doc.rec == old(doc.rec).(scenes := Summary(scenes),
                               metadata := old(doc.rec).metadata.(totalScenes := Some(|scenes|))) &&
      doc.store.history == old(doc.store.history) + [doc.rec]
    ensures o.Fail? ==> o.error == NotANumber && doc.rec == old(doc.rec)
  {
    if !AllTimed(scenes) {
      o := Fail(NotANumber);
      return;
    }
    doc.rec := doc.rec.(scenes := Summary(scenes), metadata := doc.rec.metadata.(totalScenes := Some(|scenes|)));
    o := doc.Save();
  }

  /** `renderService.renderVideo(scenes, { jobId, musicEnabled, subtitlesEnabled })` for a job with an id. */
  method Render(renderer: RenderService.RenderService, scenes: seq<WorkScene>, data: JobData, uuid: string, pick: nat)
    returns (r: Result<RenderService.RenderInfo>)
    requires data.jobId != ""
    requires forall i :: 0 <= i < |scenes| ==> scenes[i].audioPath.Some? && scenes[i].duration.Some?
    modifies renderer.fs
    ensures r.Ok? ==>
      r.value.videoKey == RenderService.VideoKey(data.jobId) &&
      r.value.videoUrl == renderer.PublicUrl(RenderService.VideoKey(data.jobId)) &&
      r.value.thumbnailUrl == renderer.PublicUrl(RenderService.ThumbKey(data.jobId)) &&
      r.value.totalScenes == |scenes|
    ensures r.Err? ==> StartsWith(r.error, "Video rendering failed: ")
  {
    var options := RenderService.RenderOptions(Some(data.jobId), data.subtitlesEnabled, data.musicEnabled);
    assert RenderService.JobIdOf(options, uuid) == data.jobId;
    ghost var track, begun;
    r, track, begun := renderer.RenderVideo(RenderScenes(scenes), options, uuid, pick);
  }

  /**
   * The second save's complaint when the probe's duration or size is `NaN`: the schema's
   * `Number` cast refuses `duration` and `metadata.fileSize`, one error per path.
   */
  function MetadataCastError(info: RenderService.RenderInfo): (e: string)
    ensures StartsWith(e, "Job validation failed: ")
  {
    var durationError := if info.duration.None? then ["duration: Cast to Number failed for value NaN"] else [];
    var sizeError := if info.fileSize.None? then ["metadata.fileSize: Cast to Number failed for value NaN"] else [];
    "Job validation failed: " + Join(durationError + sizeError, ", ")
  }

  /**
   * Lines 149-156: `markCompleted`, then the thumbnail, the duration and the merged
   * metadata, saved again. The first save passes on a synced document; the second
   * rejects exactly when the probe gave a `NaN` duration or size, leaving the completed
   * record stored.
   */
  method Complete(doc: JobDoc, info: RenderService.RenderInfo, now: int) returns (o: Outcome)
    requires Synced(doc)
    modifies doc, doc.store
    ensures Synced(doc)
    ensures o.Pass? <==> info.duration.Some? && info.fileSize.Some?
    ensures doc.rec.status == Completed && doc.rec.progress == 100
    ensures doc.rec.jobId == old(doc.rec.jobId) && doc.rec.scenes == old(doc.rec.scenes)
    ensures o.Pass? ==> Progresses(doc.store.history) == Progresses(old(doc.store.history)) + [100, 100]
    ensures o.Fail? ==> Progresses(doc.store.history) == Progresses(old(doc.store.history)) + [100]
    ensures o.Pass? ==>
      doc.rec.videoUrl == Some(info.videoUrl) && doc.rec.videoKey == Some(info.videoKey) &&
      doc.rec.thumbnailUrl == Some(info.thumbnailUrl) && doc.rec.metadata.totalScenes == Some(info.totalScenes as int)
    ensures var done := MarkedCompleted(old(doc.rec), info.videoUrl, info.videoKey, now);
      o.Pass? ==> info.duration.Some? && info.fileSize.Some? &&
                  doc.rec == done.(thumbnailUrl := Some(info.thumbnailUrl), duration := info.duration.value,
                                   metadata := MergedMetadata(done.metadata, info)) &&
                  doc.store.history == old(doc.store.history) + [done, doc.rec]
    ensures var done := MarkedCompleted(old(doc.rec), info.videoUrl, info.videoKey, now);
      o.Fail? ==> o.error == MetadataCastError(info) && doc.rec == done &&
                  doc.store.history == old(doc.store.history) + [done]
  {
    MarksKeepValid(doc.rec, info.videoUrl, info.videoKey, "", now);
    ghost var h := doc.store.history;
    var completed := doc.MarkCompleted(info.videoUrl, info.videoKey, now);
    assert completed.Pass?;
    ProgressesSnoc(h, doc.rec);
    ghost var done := doc.rec;
    o := Amend(doc, info);
    if o.Pass? {
      ProgressesSnoc(h + [done], doc.rec);
      assert h + [done, doc.rec] == h + [done] + [doc.rec];
    }
  }

  /**
   * Lines 150-156: the thumbnail, the duration and the merged metadata, saved. The
   * save rejects exactly when the probe's duration or size is `NaN`.
   */
  method Amend(doc: JobDoc, info: RenderService.RenderInfo) returns (o: Outcome)
    requires Synced(doc)
    modifies doc, doc.store
    ensures Synced(doc)
    ensures o.Pass? <==> info.duration.Some? && info.fileSize.Some?
    ensures o.Pass? ==> info.duration.Some? && info.fileSize.Some? &&
                        doc.rec == old(doc.rec).(thumbnailUrl := Some(info.thumbnailUrl), duration := info.duration.value,
                                                 metadata := MergedMetadata(old(doc.rec).metadata, info)) &&
                        doc.store.history == old(doc.store.history) + [doc.rec]
    ensures o.Fail? ==> o.error == MetadataCastError(info) && doc.rec == old(doc.rec) &&
                        doc.store.history == old(doc.store.history)
  {
    if info.duration.None? || info.fileSize.None? {
      o := Fail(MetadataCastError(info));
      return;
    }
    doc.rec := doc.rec.(thumbnailUrl := Some(info.thumbnailUrl), duration := info.duration.value,
                        metadata := MergedMetadata(doc.rec.metadata, info));
    o := doc.Save();
    assert o.Pass?;
  }

  /**
   * Lines 146-156: report 95, then `Complete`. A failure is the second save's rejection,
   * after the job was stored completed at 100.
   */
  method Conclude(doc: JobDoc, info: RenderService.RenderInfo, now: int) returns (o: Outcome)
    requires Synced(doc)
    modifies doc, doc.store
    ensures Synced(doc) && doc.rec.jobId == old(doc.rec.jobId) && doc.rec.scenes == old(doc.rec.scenes)
    ensures doc.rec.status == Completed && doc.rec.progress == 100
    ensures o.Pass? ==> Progresses(doc.store.history) == Progresses(old(doc.store.history)) + [95, 100, 100]
    ensures o.Pass? ==>
      doc.rec.videoUrl == Some(info.videoUrl) && doc.rec.videoKey == Some(info.videoKey) &&
      doc.rec.thumbnailUrl == Some(info.thumbnailUrl) && doc.rec.metadata.totalScenes == Some(info.totalScenes as int)
    ensures o.Fail? ==>
      StartsWith(o.error, "Job validation failed: ") &&
      Progresses(doc.store.history) == Progresses(old(doc.store.history)) + [95, 100]
  {
    ghost var h1 := doc.store.history;
    Report(doc, 95, "Finalizing", doc.rec);
    ProgressesSnoc(h1, doc.rec);
    o := Complete(doc, info, now);
  }

  /**
   * Lines 137-164: report 65, render, report 95, mark the job completed, copy the
   * thumbnail, duration and output metadata onto it and save again.
   */
  method Finish(doc: JobDoc, renderer: RenderService.RenderService, scenes: seq<WorkScene>, data: JobData,
                uuid: string, pick: nat, now: int) returns (r: Result<ProcessResult>)
    requires Synced(doc) && doc.rec.jobId == data.jobId
    requires forall i :: 0 <= i < |scenes| ==> scenes[i].audioPath.Some? && scenes[i].duration.Some?
    modifies doc, doc.store, renderer.fs
    ensures Synced(doc) && doc.rec.jobId == data.jobId && doc.rec.scenes == old(doc.rec.scenes)
    ensures r.Ok? ==> Progresses(doc.store.history) == Progresses(old(doc.store.history)) + [65, 95, 100, 100]
    ensures r.Ok? ==>
      var key := RenderService.VideoKey(data.jobId);
      r.value == ProcessResult(true, data.jobId, renderer.PublicUrl(key)) &&
      doc.rec.status == Completed && doc.rec.progress == 100 &&
      doc.rec.videoUrl == Some(renderer.PublicUrl(key)) && doc.rec.videoKey == Some(key) &&
      doc.rec.thumbnailUrl == Some(renderer.PublicUrl(RenderService.ThumbKey(data.jobId))) &&
      doc.rec.metadata.totalScenes == Some(|scenes|)
    ensures r.Err? ==> StartsWith(r.error, "Video rendering failed: ") || StartsWith(r.error, "Job validation failed: ")
    ensures r.Err? && !StartsWith(r.error, "Video rendering failed: ") ==>
      doc.rec.status == Completed && doc.rec.progress == 100 &&
      Progresses(doc.store.history) == Progresses(old(doc.store.history)) + [65, 95, 100]
  {
    ghost var h0 := doc.store.history;
    ghost var start := doc.rec;
    Report(doc, 65, "Rendering video", start);
    ProgressesSnoc(h0, doc.rec);
    ghost var h1 := doc.store.history;
    var rendered := Render(renderer, scenes, data, uuid, pick);
    if rendered.Err? {
      r := Err(rendered.error);
      return;
    }
    var concluded := Conclude(doc, rendered.value, now);
    if concluded.Fail? {
      assert StartsWith(concluded.error, "Job validation failed: ");
      assert concluded.error[0] == 'J';
      r := Err(concluded.error);
      return;
    }
    r := Ok(ProcessResult(true, data.jobId, rendered.value.videoUrl));
  }

  /**
   * Lines 166-176: load the document again and, when there is one, mark it failed with
   * the error's message; the error is then rethrown, unless marking it failed threw.
   */
  method Recover(store: JobStore, jobId: string, message: string, now: int) returns (error: string)
    requires store.Keyed()
    modifies store
    ensures store.Keyed()
    ensures jobId !in old(store.records) ==> error == message && store.records == old(store.records)
    ensures jobId in old(store.records) && Validate(old(store.records)[jobId]).Pass? ==>
      error == message && store.records == old(store.records)[jobId := MarkedFailed(old(store.records)[jobId], message, now)]
    ensures jobId in old(store.records) && Validate(old(store.records)[jobId]).Fail? ==>
      error == Validate(MarkedFailed(old(store.records)[jobId], message, now)).error &&
      store.records == old(store.records)
  {
    error := message;
    var doc := store.FindOne(jobId);
    if doc != null {
      var marked := doc.MarkFailed(message, now);
      if marked.Fail? {
        error := marked.error;
      }
    }
  }

  /** Scene `i` of the finished array holds text `i` and a voice-over, as the render needs. */
  predicate Produced(scenes: seq<WorkScene>, texts: seq<string>) {
    |scenes| == |texts| &&
    forall i :: 0 <= i < |scenes| ==>
      scenes[i].sceneIndex == i && scenes[i].text == texts[i] && scenes[i].audioPath.Some?
  }

  /** Lines 71-125: the image stage, then the voice-over stage over the scenes it built. */
  method Produce(doc: JobDoc, images: ImageGenerator.ImageService, voices: TtsGenerator.TtsService,
                 log: Timeline, texts: seq<string>, data: JobData) returns (scenes: seq<WorkScene>, o: Outcome)
    requires |texts| >= 1 && Synced(doc)
    modifies doc, doc.store, images.fs, voices.fs, log
    ensures Synced(doc) && doc.rec.jobId == old(doc.rec.jobId)
    ensures o.Pass? ==> Produced(scenes, texts) && doc.rec == WithProgress(old(doc.rec), 65, doc.rec.currentStep)
    ensures o.Pass? ==>
      Progresses(doc.store.history) == Progresses(old(doc.store.history)) +
        [15] + StageValues(15, |texts|, |texts|) + [40] + StageValues(40, |texts|, |texts|)
    ensures o.Pass? ==>
      log.events == old(log.events) + LoopEvents(ImageCall, 1000, |texts|, |texts|) +
        LoopEvents(AudioCall, 500, |texts|, |texts|)
  {
    var imaged;
    imaged, o := ImageStage(doc, images, log, texts, data.imageStyle);
    scenes := imaged;
    if o.Fail? {
      return;
    }
    scenes, o := AudioStage(doc, voices, log, imaged, data.voiceId);
  }

  /** Lines 128-164: store the scenes, render and finish, on the document `Begin` loaded. */
  method Pipeline(doc: JobDoc, renderer: RenderService.RenderService, scenes: seq<WorkScene>, texts: seq<string>,
                  data: JobData, uuid: string, pick: nat, now: int) returns (r: Result<ProcessResult>)
    requires Synced(doc) && doc.rec.jobId == data.jobId && Produced(scenes, texts)
    modifies doc, doc.store, renderer.fs
    ensures Synced(doc) && doc.rec.jobId == data.jobId
    ensures r.Ok? ==>
      Progresses(doc.store.history) == Progresses(old(doc.store.history)) + [old(doc.rec).progress, 65, 95, 100, 100]
    ensures r.Ok? ==>
      r.value.success && r.value.jobId == data.jobId && doc.rec.status == Completed && doc.rec.progress == 100 &&
      doc.rec.videoUrl == Some(r.value.videoUrl) && doc.rec.metadata.totalScenes == Some(|texts|) &&
      |doc.rec.scenes| == |texts| &&
      forall i :: 0 <= i < |texts| ==> doc.rec.scenes[i].sceneIndex == i && doc.rec.scenes[i].text == texts[i]
  {
    ghost var h0 := doc.store.history;
    var o := PersistScenes(doc, scenes);
    if o.Fail? {
      r := Err(o.error);
      return;
    }
    ProgressesSnoc(h0, doc.rec);
    r := Finish(doc, renderer, scenes, data, uuid, pick, now);
  }

  /** Lines 66-164: every stage after `Begin`, on the document it loaded. */
  method Work(doc: JobDoc, images: ImageGenerator.ImageService, voices: TtsGenerator.TtsService,
              renderer: RenderService.RenderService, log: Timeline, data: JobData, uuid: string, pick: nat,
              completedAt: int) returns (r: Result<ProcessResult>)
    requires Synced(doc) && doc.rec.jobId == data.jobId
    modifies doc, doc.store, images.fs, voices.fs, renderer.fs, log
    ensures Synced(doc) && doc.rec.jobId == data.jobId
    ensures r.Ok? ==>
      var n := |SplitScenes(data.text)|;
      n >= 1 &&
      Progresses(doc.store.history) == Progresses(old(doc.store.history)) +
        [15] + StageValues(15, n, n) + [40] + StageValues(40, n, n) + [65, 65, 95, 100, 100] &&
      log.events == old(log.events) + LoopEvents(ImageCall, 1000, n, n) + LoopEvents(AudioCall, 500, n, n)
    ensures r.Ok? ==>
      var texts := SplitScenes(data.text);
      r.value.success && r.value.jobId == data.jobId &&
      doc.rec.status == Completed && doc.rec.progress == 100 && doc.rec.videoUrl == Some(r.value.videoUrl) &&
      doc.rec.metadata.totalScenes == Some(|texts|) && |doc.rec.scenes| == |texts| &&
      forall i :: 0 <= i < |texts| ==> doc.rec.scenes[i].sceneIndex == i && doc.rec.scenes[i].text == texts[i]
  {
    var texts := SplitTextIntoScenes(data.text);
    SplitScenesNonEmpty(data.text);
    var scenes, o := Produce(doc, images, voices, log, texts, data);
    if o.Fail? {
      r := Err(o.error);
      return;
    }
    r := Pipeline(doc, renderer, scenes, texts, data, uuid, pick, completedAt);
  }

  /**
   * Lines 53-170, the handler's `try` block: an `Err` is the error it throws, with the
   * stored record still valid when it was valid to begin with.
   */
  method Attempt(store: JobStore, images: ImageGenerator.ImageService, voices: TtsGenerator.TtsService,
                 renderer: RenderService.RenderService, log: Timeline, data: JobData, uuid: string, pick: nat,
                 completedAt: int) returns (r: Result<ProcessResult>)
    requires store.Keyed()
    modifies store, images.fs, voices.fs, renderer.fs, log
    ensures store.Keyed()
    ensures data.jobId !in old(store.records) ==> r == Err(NotFound) && store.records == old(store.records)
    ensures r.Ok? ==> data.jobId in old(store.records) && data.jobId in store.records
    ensures r.Ok? ==>
      var n := |SplitScenes(data.text)|;
      n >= 1 &&
      Progresses(store.history) ==
        Progresses(old(store.history)) + [old(store.records)[data.jobId].progress] + ProgressTrail(n) &&
      log.events == old(log.events) + LoopEvents(ImageCall, 1000, n, n) + LoopEvents(AudioCall, 500, n, n)
    ensures r.Ok? ==>
      var rec := store.records[data.jobId];
      var texts := SplitScenes(data.text);
      r.value.success && r.value.jobId == data.jobId &&
      rec.status == Completed && rec.progress == 100 && rec.videoUrl == Some(r.value.videoUrl) &&
      rec.metadata.totalScenes == Some(|texts|) && |rec.scenes| == |texts| &&
      forall i :: 0 <= i < |texts| ==> rec.scenes[i].sceneIndex == i && rec.scenes[i].text == texts[i]
    ensures r.Err? && data.jobId in old(store.records) && Validate(old(store.records)[data.jobId]).Pass? ==>
      StoredValid(store, data.jobId)
  {
    var doc, o := Begin(store, data.jobId);
    if o.Fail? {
      r := Err(o.error);
      return;
    }
    ghost var h0 := old(store.history);
    ghost var started := old(store.records)[data.jobId].(status := Processing);
    ProgressesSnoc(h0, started);
    ProgressesSnoc(h0 + [started], doc.rec);
    assert h0 + [started, doc.rec] == h0 + [started] + [doc.rec];
    r := Work(doc, images, voices, renderer, log, data, uuid, pick, completedAt);
    if r.Ok? {
      var n := |SplitScenes(data.text)|;
      TrailJoins(Progresses(h0), started.progress, StageValues(15, n, n), StageValues(40, n, n));
    }
  }

  /**
   * `processVideoGeneration(job)`: the whole handler. `uuid` and `pick` are the render's
   * fallback id and music choice, `completedAt` and `failedAt` the clock readings of the
   * marks; an `Err` is the error the handler throws, after the `catch` block marked the
   * job failed.
   */
  method ProcessVideoGeneration(store: JobStore, images: ImageGenerator.ImageService,
                                voices: TtsGenerator.TtsService, renderer: RenderService.RenderService,
                                log: Timeline, data: JobData, uuid: string, pick: nat,
                                completedAt: int, failedAt: int) returns (r: Result<ProcessResult>)
    requires store.Keyed()
    modifies store, images.fs, voices.fs, renderer.fs, log
    ensures store.Keyed()
    ensures data.jobId !in old(store.records) ==> r == Err(NotFound) && store.records == old(store.records)
    ensures r.Ok? ==> data.jobId in old(store.records) && data.jobId in store.records
    ensures r.Ok? ==>
      var n := |SplitScenes(data.text)|;
      n >= 1 &&
      Progresses(store.history) ==
        Progresses(old(store.history)) + [old(store.records)[data.jobId].progress] + ProgressTrail(n) &&
      log.events == old(log.events) + LoopEvents(ImageCall, 1000, n, n) + LoopEvents(AudioCall, 500, n, n)
    ensures r.Ok? ==>
      var rec := store.records[data.jobId];
      var texts := SplitScenes(data.text);
      r.value.success && r.value.jobId == data.jobId &&
      rec.status == Completed && rec.progress == 100 && rec.videoUrl == Some(r.value.videoUrl) &&
      rec.metadata.totalScenes == Some(|texts|) && |rec.scenes| == |texts| &&
      forall i :: 0 <= i < |texts| ==> rec.scenes[i].sceneIndex == i && rec.scenes[i].text == texts[i]
    ensures r.Err? && data.jobId in old(store.records) && Validate(old(store.records)[data.jobId]).Pass? ==>
      data.jobId in store.records &&
      store.records[data.jobId].status == Failed && store.records[data.jobId].error == Some(r.error)
  {
    r := Attempt(store, images, voices, renderer, log, data, uuid, pick, completedAt);
    if r.Err? {
      var error := Recover(store, data.jobId, r.error, failedAt);
      r := Err(error);
    }
  }

  /** The three stretches of a successful run's saves make up its whole progress trail. */
  lemma TrailJoins(before: seq<int>, p: int, images: seq<int>, voices: seq<int>)
    ensures before + [p] + [10] + [15] + images + [40] + voices + [65, 65, 95, 100, 100] ==
            before + [p] + ([10, 15] + images + [40] + voices + [65, 65, 95, 100, 100])
  {
  }
}

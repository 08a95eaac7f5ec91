/**
 * The `Job` document: its schema defaults and enums, its validation on `save`, the three
 * mutators `updateProgress`, `markCompleted`, `markFailed` and the `processingDuration`
 * virtual. Dates are milliseconds since the epoch; the collection is a map from `jobId`
 * to the last record saved under it.
 */
module JobModel {
  import opened Wrappers

  /** The four values of the `status` enum. */
  datatype Status = Pending | Processing | Completed | Failed

  function StatusName(s: Status): string {
    match s
    case Pending => "pending"
    case Processing => "processing"
    case Completed => "completed"
    case Failed => "failed"
  }

  /** The enum check: a string is a status exactly when it is one of the four names. */
  function ParseStatus(name: string): (r: Option<Status>)
    ensures r.Some? ==> StatusName(r.value) == name
  {
    if name == "pending" then Some(Pending)
    else if name == "processing" then Some(Processing)
    else if name == "completed" then Some(Completed)
    else if name == "failed" then Some(Failed)
    else None
  }

  lemma StatusNameParses(s: Status)
    ensures ParseStatus(StatusName(s)) == Some(s)
  {
  }

  datatype Settings = Settings(voiceId: string, imageStyle: string, musicEnabled: bool, subtitlesEnabled: bool)

  /** The settings a request gives; a missing one takes the schema default. */
  datatype SettingsInput = SettingsInput(
    voiceId: Option<string>, imageStyle: Option<string>,
    musicEnabled: Option<bool>, subtitlesEnabled: Option<bool>)

  function OrElse<T>(o: Option<T>, d: T): T {
    if o.Some? then o.value else d
  }

  /** Settings with the defaults `default`, `realistic`, music on and subtitles on. */
  function SettingsOf(input: SettingsInput): (s: Settings)
    ensures input.voiceId.None? ==> s.voiceId == "default"
    ensures input.imageStyle.None? ==> s.imageStyle == "realistic"
    ensures input.musicEnabled.None? ==> s.musicEnabled
    ensures input.subtitlesEnabled.None? ==> s.subtitlesEnabled
  {
    Settings(OrElse(input.voiceId, "default"), OrElse(input.imageStyle, "realistic"),
             OrElse(input.musicEnabled, true), OrElse(input.subtitlesEnabled, true))
  }

  /** One element of the `scenes` array; durations are milliseconds. */
  datatype SceneEntry = SceneEntry(sceneIndex: int, text: string, imageUrl: Option<string>,
                                   audioUrl: Option<string>, duration: int)

  /** Output metadata; `fileSize` and `totalScenes` have no default. */
  datatype Metadata = Metadata(resolution: string, fps: int, fileSize: Option<int>,
                               totalScenes: Option<int>, width: Option<int>, height: Option<int>)

  datatype JobRecord = JobRecord(
    jobId: string, userId: Option<string>, inputText: string,
    status: Status, progress: int, currentStep: string,
    scenes: seq<SceneEntry>, settings: Settings,
    videoUrl: Option<string>, videoKey: Option<string>, thumbnailUrl: Option<string>,
    duration: int, error: Option<string>, metadata: Metadata,
    processingTime: int, createdAt: int, completedAt: Option<int>)

  /** A job as it is created: every field the request does not give takes its default. */
  function NewJob(jobId: string, userId: Option<string>, inputText: string,
                  settings: SettingsInput, now: int): (r: JobRecord)
    ensures r.status == Pending && r.progress == 0 && r.currentStep == "queued"
    ensures r.error.None? && r.videoUrl.None? && r.videoKey.None? && r.completedAt.None?
    ensures r.thumbnailUrl.None? && r.scenes == [] && r.duration == 0 && r.processingTime == 0
    ensures r.metadata.resolution == "1080x1920" && r.metadata.fps == 30
    ensures r.createdAt == now && r.jobId == jobId && r.inputText == inputText
  {
    JobRecord(jobId, userId, inputText, Pending, 0, "queued", [], SettingsOf(settings),
              None, None, None, 0, None, Metadata("1080x1920", 30, None, None, None, None),
              0, now, None)
  }

  /**
   * The validators `save` runs: `jobId` and `inputText` are required (an empty string
   * fails `required`), and `progress` must lie in 0..100.
   */
  function Validate(r: JobRecord): (o: Outcome)
    ensures o.Pass? <==> r.jobId != [] && r.inputText != [] && 0 <= r.progress <= 100
  {
    if r.jobId == [] then Fail("Job validation failed: jobId: Path `jobId` is required.")
    else if r.inputText == [] then Fail("Job validation failed: inputText: Path `inputText` is required.")
    else if r.progress < 0 then Fail("Job validation failed: progress: below the minimum allowed value (0).")
    else if r.progress > 100 then Fail("Job validation failed: progress: above the maximum allowed value (100).")
    else Pass
  }

  /** `Math.round(d / 1000)`: the nearest whole number of seconds, halves rounded up. */
  function RoundSeconds(d: int): (r: int)
    ensures 1000 * r - 500 <= d < 1000 * r + 500
  {
    (d + 500) / 1000
  }

  /** The `processingDuration` virtual: whole seconds between creation and completion, else 0. */
  function ProcessingDuration(r: JobRecord): int {
    if r.completedAt.Some? then RoundSeconds(r.completedAt.value - r.createdAt) else 0
  }

  /** The fields `updateProgress(progress, step)` assigns; nothing else, and not the status. */
  function WithProgress(r: JobRecord, progress: int, step: string): (r': JobRecord)
    ensures r'.progress == progress && r'.currentStep == step
    ensures r'.(progress := r.progress, currentStep := r.currentStep) == r
  {
    r.(progress := progress, currentStep := step)
  }

  /** The fields `markCompleted(videoUrl, videoKey)` assigns at time `now`. */
  function MarkedCompleted(r: JobRecord, videoUrl: string, videoKey: string, now: int): (r': JobRecord)
    ensures r'.status == Completed && r'.progress == 100
    ensures r'.videoUrl == Some(videoUrl) && r'.videoKey == Some(videoKey) && r'.completedAt == Some(now)
    ensures r'.processingTime == ProcessingDuration(r')
    ensures r'.(status := r.status, progress := r.progress, videoUrl := r.videoUrl, videoKey := r.videoKey,
                completedAt := r.completedAt, processingTime := r.processingTime) == r
  {
    r.(status := Completed, progress := 100, videoUrl := Some(videoUrl), videoKey := Some(videoKey),
       completedAt := Some(now), processingTime := RoundSeconds(now - r.createdAt))
  }

  /** The fields `markFailed(error)` assigns at time `now`: progress, video and timing stay. */
  function MarkedFailed(r: JobRecord, error: string, now: int): (r': JobRecord)
    ensures r'.status == Failed && r'.error == Some(error) && r'.completedAt == Some(now)
    ensures r'.progress == r.progress && r'.processingTime == r.processingTime && r'.videoUrl == r.videoUrl
    ensures r'.(status := r.status, error := r.error, completedAt := r.completedAt) == r
  {
    r.(status := Failed, error := Some(error), completedAt := Some(now))
  }

  /** A record that passed validation stays valid through `markCompleted` and `markFailed`. */
  lemma MarksKeepValid(r: JobRecord, videoUrl: string, videoKey: string, error: string, now: int)
    requires Validate(r).Pass?
    ensures Validate(MarkedCompleted(r, videoUrl, videoKey, now)).Pass?
    ensures Validate(MarkedFailed(r, error, now)).Pass?
  {
  }

  /** `updateProgress` saves successfully exactly when the record was otherwise valid and the value is in 0..100. */
  lemma ProgressSaveIff(r: JobRecord, progress: int, step: string)
    requires Validate(r).Pass?
    ensures Validate(WithProgress(r, progress, step)).Pass? <==> 0 <= progress <= 100
  {
  }

  /**
   * Neither mark checks the prior status: failing a completed job leaves it failed, with
   * the completion's progress, video and processing time still in place.
   */
  lemma FailAfterComplete(r: JobRecord, videoUrl: string, videoKey: string, t1: int, error: string, t2: int)
    ensures MarkedFailed(MarkedCompleted(r, videoUrl, videoKey, t1), error, t2).status == Failed
    ensures MarkedFailed(MarkedCompleted(r, videoUrl, videoKey, t1), error, t2).progress == 100
    ensures MarkedFailed(MarkedCompleted(r, videoUrl, videoKey, t1), error, t2).videoUrl == Some(videoUrl)
    ensures MarkedFailed(MarkedCompleted(r, videoUrl, videoKey, t1), error, t2).completedAt == Some(t2)
  {
  }

  /** Completing a failed job likewise leaves it completed, with the old error kept. */
  lemma CompleteAfterFail(r: JobRecord, error: string, t1: int, videoUrl: string, videoKey: string, t2: int)
    ensures MarkedCompleted(MarkedFailed(r, error, t1), videoUrl, videoKey, t2).status == Completed
    ensures MarkedCompleted(MarkedFailed(r, error, t1), videoUrl, videoKey, t2).error == Some(error)
  {
  }

  /**
   * The MongoDB error for an insert whose `jobId` the unique index already holds (code
   * E11000); the collection and index names stand in for the deployed ones.
   */
  function DuplicateKeyError(jobId: string): (e: string)
    ensures |e| >= |jobId| + 10 && e[..6] == "E11000"
    ensures e[|e| - 3 - |jobId|..|e| - 3] == jobId
  {
    var head := "E11000" + " duplicate key error collection: jobs index: jobId_1 dup key: { jobId: \"";
    var e := head + jobId + "\" }";
    assert e == "E11000" + (head[6..] + jobId + "\" }");
    assert |e| == |head| + |jobId| + 3;
    assert e[|head|..|head| + |jobId|] == jobId;
    e
  }

  /** The jobs collection: the last successfully saved record under each `jobId`. */
  class JobStore {
    var records: map<string, JobRecord>
    /** Every record written, in order. */
    ghost var history: seq<JobRecord>

    constructor ()
      ensures records == map[] && history == []
    {
      records := map[];
      history := [];
    }

    /** Each record is stored under its own `jobId`, the key `findOne({ jobId })` looks up. */
    predicate Keyed()
      reads this
    {
      forall k :: k in records ==> records[k].jobId == k
    }

    /**
     * `Job.create(...)`: validate the new record, then insert it. The `unique: true` index on
     * `jobId` refuses an insert whose id is already stored, and nothing is written then.
     */
    method Create(jobId: string, userId: Option<string>, inputText: string,
                  settings: SettingsInput, now: int) returns (o: Outcome)
      modifies this
      ensures o.Pass? <==> Validate(NewJob(jobId, userId, inputText, settings, now)).Pass? &&
                           jobId !in old(records)
      ensures Validate(NewJob(jobId, userId, inputText, settings, now)).Fail? ==>
                o == Validate(NewJob(jobId, userId, inputText, settings, now))
      ensures Validate(NewJob(jobId, userId, inputText, settings, now)).Pass? && jobId in old(records) ==>
                o == Fail(DuplicateKeyError(jobId))
      ensures records == if o.Pass? then old(records)[jobId := NewJob(jobId, userId, inputText, settings, now)]
                         else old(records)
      ensures history == if o.Pass? then old(history) + [NewJob(jobId, userId, inputText, settings, now)]
                         else old(history)
      ensures old(Keyed()) ==> Keyed()
    {
      var r := NewJob(jobId, userId, inputText, settings, now);
      o := Validate(r);
      if o.Pass? {
        if jobId in records {
          o := Fail(DuplicateKeyError(jobId));
        } else {
          records := records[jobId := r];
          history := history + [r];
        }
      }
    }

    /** `Job.findOne({ jobId })`: a fresh document loaded from the stored record, or null. */
    method FindOne(jobId: string) returns (doc: JobDoc?)
      ensures doc == null <==> jobId !in records
      ensures doc != null ==> fresh(doc) && doc.rec == records[jobId] && doc.store == this
    {
      if jobId in records {
        doc := new JobDoc(this, records[jobId]);
      } else {
        doc := null;
      }
    }
  }

  /** A loaded `Job` document: its fields, changed in memory until `save` writes them. */
  class JobDoc {
    var rec: JobRecord
    const store: JobStore

    constructor (store: JobStore, rec: JobRecord)
      ensures this.store == store && this.rec == rec
    {
      this.store := store;
      this.rec := rec;
    }

    /** `save()`: the validators run; on success the record replaces the stored one. */
    method Save() returns (o: Outcome)
      modifies store
      ensures o == Validate(rec)
      ensures store.records == if o.Pass? then old(store.records)[rec.jobId := rec] else old(store.records)
      ensures store.history == if o.Pass? then old(store.history) + [rec] else old(store.history)
    {
      o := Validate(rec);
      if o.Pass? {
        store.records := store.records[rec.jobId := rec];
        store.history := store.history + [rec];
      }
    }

    /** `updateProgress(progress, step)`: assign both fields, then save. */
    method UpdateProgress(progress: int, step: string) returns (o: Outcome)
      modifies this, store
      ensures rec == WithProgress(old(rec), progress, step)
      ensures o == Validate(rec)
      ensures store.records == if o.Pass? then old(store.records)[rec.jobId := rec] else old(store.records)
      ensures store.history == if o.Pass? then old(store.history) + [rec] else old(store.history)
    {
      rec := rec.(progress := progress, currentStep := step);
      o := Save();
    }

    /** `markCompleted(videoUrl, videoKey)` at time `now`, then save. */
    method MarkCompleted(videoUrl: string, videoKey: string, now: int) returns (o: Outcome)
      modifies this, store
      ensures rec == MarkedCompleted(old(rec), videoUrl, videoKey, now)
      ensures o == Validate(rec)
      ensures store.records == if o.Pass? then old(store.records)[rec.jobId := rec] else old(store.records)
      ensures store.history == if o.Pass? then old(store.history) + [rec] else old(store.history)
    {
      rec := rec.(status := Completed, progress := 100, videoUrl := Some(videoUrl),
                  videoKey := Some(videoKey), completedAt := Some(now));
      rec := rec.(processingTime := RoundSeconds(rec.completedAt.value - rec.createdAt));
      o := Save();
    }

    /** `markFailed(error)` at time `now`, then save. */
    method MarkFailed(error: string, now: int) returns (o: Outcome)
      modifies this, store
      ensures rec == MarkedFailed(old(rec), error, now)
      ensures o == Validate(rec)
      ensures store.records == if o.Pass? then old(store.records)[rec.jobId := rec] else old(store.records)
      ensures store.history == if o.Pass? then old(store.history) + [rec] else old(store.history)
    {
      rec := rec.(status := Failed, error := Some(error), completedAt := Some(now));
      o := Save();
    }
  }
}

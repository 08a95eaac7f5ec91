# Aisaas worker pipeline in Dafny

Aisaas turns a piece of narration into a vertical (1080x1920) short video. A queue worker
takes a job, splits the text into scenes, asks an image backend for one picture per
scene and a speech engine for one voice-over per scene, then has ffmpeg assemble the
clips, subtitles, music and thumbnail, uploads the result to object storage, and records
progress and the outcome on the job's database document. This project models that
worker-side pipeline and proves what each part promises.

| module (file) | what it models |
|---|---|
| `Wrappers` (wrappers.dfy) | `Option`, `Result` (a `throw` is an `Err` with the message) and `Outcome` |
| `JsText` (text.dfy) | the JavaScript string operations the pipeline uses: `\s`, `trim`, `split(/\s+/)`, `replace(/\s+/g, ' ')`, `split(' ')`, `indexOf`, decimal rendering and zero padding, the `"` escaping of shell arguments |
| `SceneSplitter` (scene_splitter.dfy) | `splitTextIntoScenes`: cleaning, sentence matching, packing into scenes of at most 18 words, 15-word chunking and merging of short scenes; the loops are methods proved equal to folds that follow the code step by step |
| `SubtitleCues` (subtitle_cues.dfy) | `generateSubtitleEntry` and its `formatTime`, with a parser that reads a cue back |
| `JobModel` (job_model.dfy) | the `Job` document: schema defaults and enums, validation on `save`, `updateProgress`, `markCompleted`, `markFailed`, `processingDuration`, and the collection as a `JobStore` class |
| `UserModel` (user_model.dfy) | the `User` document: defaults, `hasCredits`, `deductCredit`, `addCredits`, `planName` |
| `Environment` (environment.dfy) | the disk as a `FileSystem` class (a map from path to contents and a set of directories) and the `fs` calls |
| `FfmpegCommands` (ffmpeg_commands.dfy) | each ffmpeg stage as a command value, the concat list, the fatal and pass-through failure behaviour of each stage, `getVideoMetadata` with its defaults |
| `RenderService` (render_service.dfy) | the `RenderService` class: directories, per-scene clips, concatenation, the SRT fold, music choice, optimisation, thumbnail, upload keys and the prefix cleanup |
| `ImageGenerator` (image_generator.dfy) | `buildPrompt`, the backend dispatch, local Stable Diffusion, Automatic1111, the bounded ComfyUI poll, the placeholder fallback |
| `TtsGenerator` (tts_generator.dfy) | the engine dispatch, the ElevenLabs voice table, MP3-to-WAV conversion, Bark, the duration floor of two seconds and the silent three-second fallback |
| `QuickImage` (quick_image.dfy) | `generateQuickImage`: gradient colour choice, greedy word wrap and the vertical line layout |
| `Processor` (processor.dfy) | `processVideoGeneration`: stage order, the per-scene progress formula, the scene array, the pauses between provider calls, and the single failure path through `markFailed` |

The outside world is given to the model as parameters:
- the ffmpeg, ffprobe and Bark programs;
- the HTTP replies of ElevenLabs, Automatic1111 and ComfyUI;
- the object store;
- canvas text measurement and PNG encoding;
- the clock, the random numbers and the generated uuid.

Each of these is an oracle function or a plain value. The model states what the code does
with whatever they return.

Times are whole milliseconds, and progress percentages use exact rationals. `Math.round(x)`
is `floor(x + 1/2)`.

### Where the code and its comments differ

The model follows the code, with two exceptions. Where a Findings row shows the code
defeating its own evident intent, the pipeline uses the corrected member, and "## Left out"
names each member that inherits the correction.
- **Scene length.** The doc comment of `splitTextIntoScenes` promises scenes of 10 to 18
  words. The code does not keep that promise:
  - a trailing chunk of a long scene may hold fewer than 5 words;
  - merging a short scene into the previous one can push that scene past 18 words;
  - a scene of more than 18 words can come out of packing when it is one sentence.
- **Dropped and empty text.** Text after the last sentence terminator is dropped when the
  text has at least one terminated sentence. A blank text yields one empty scene.
- **Quotes.** The comment on the two quote replacements says they normalise typographic
  quotes. As written, they contain only ASCII quotes (see Findings). `Clean` and the
  scene splitting use the corrected normalisation.

## Model

| member | source | states |
|---|---|---|
| `SceneSplitter.SplitTextIntoScenes` | backend/src/services/ai/textSplitter.js:8-98 | the loop program returns exactly the scenes of the specification fold `SplitScenes` (clean, match, pack, validate) |
| `SceneSplitter.SplitScenesNonEmpty` | backend/src/services/ai/textSplitter.js:49-89 | at least one scene comes back; exactly one empty scene when the cleaned text is empty, and otherwise every scene holds a word |
| `SceneSplitter.SplitScenesKeepWords` | backend/src/services/ai/textSplitter.js:17-89 | the words of all output scenes, in order, are exactly the words of the matched sentences: nothing reordered, duplicated or invented |
| `SceneSplitter.FirstSceneNeverMerged` | backend/src/services/ai/textSplitter.js:83-88 | the first packed scene is never merged away: when it is not chunked the first output scene starts with it |
| `SceneSplitter.MergeIntoPrevious` | backend/src/services/ai/textSplitter.js:83-85 | merging a short scene keeps the number of scenes and all earlier scenes, and extends the last one with the short scene's words |
| `SceneSplitter.MergeKeepsWords` | backend/src/services/ai/textSplitter.js:85 | after a merge the words of the output are the old words followed by the merged scene's words |
| `SceneSplitter.ChunkPiecesFacts` | backend/src/services/ai/textSplitter.js:64-82 | a long scene is cut into trimmed pieces of 1 to 15 words whose words are the scene's words in order, every piece but the last holding exactly 15 |
| `SceneSplitter.PushChunks` | backend/src/services/ai/textSplitter.js:66-82 | the chunking loop appends exactly the pieces of the chunk fold to the validated scenes |
| `SceneSplitter.PackScenesLongAreSentences` | backend/src/services/ai/textSplitter.js:27-35 | a packed scene of more than 18 words is always a single (trimmed) sentence |
| `SceneSplitter.PackScenesWords` | backend/src/services/ai/textSplitter.js:19-57 | packing keeps every scene trimmed and keeps the words of the sentences in order |
| `SceneSplitter.PackScenesTokened` | backend/src/services/ai/textSplitter.js:49-57 | packing a blank text gives one empty scene (the fallback of line 56); otherwise every packed scene holds a word |
| `SceneSplitter.IndexOfFlushAgrees` | backend/src/services/ai/textSplitter.js:37-52 | with at least two sentences, `indexOf` on repeated sentences (first occurrence) and the true position lead to the same remainder flush at the end |
| `SceneSplitter.SentencesIndexOfFlushAgrees` | backend/src/services/ai/textSplitter.js:37-52 | for any text, what is flushed at the end does not depend on whether the last-sentence test uses `indexOf` or the loop position |
| `SceneSplitter.PackSentences` | backend/src/services/ai/textSplitter.js:19-57 | the packing loop with its final flush and fallback returns exactly the scenes of `PackScenes` |
| `SceneSplitter.PackLoop` | backend/src/services/ai/textSplitter.js:23-47 | the `for` loop over sentences leaves `scenes`, `currentScene` and `wordCount` equal to the packing fold over all sentences |
| `SceneSplitter.PackSentence` | backend/src/services/ai/textSplitter.js:24-46 | one iteration is one step of the packing fold, including the `indexOf` test |
| `SceneSplitter.AbsorbSentence` | backend/src/services/ai/textSplitter.js:27-34 | starting a new scene above 18 words, or else appending the sentence, is the fold's absorb step |
| `SceneSplitter.ValidateScenes` | backend/src/services/ai/textSplitter.js:60-89 | the validation loop returns exactly the validation fold over all packed scenes |
| `SceneSplitter.ValidateNext` | backend/src/services/ai/textSplitter.js:61-88 | one validation iteration extends the fold's prefix by one scene |
| `SceneSplitter.ValidateScene` | backend/src/services/ai/textSplitter.js:62-88 | the three branches (chunk, merge, push) are the fold's validation step |
| `SceneSplitter.AllScenesValidated` | backend/src/services/ai/textSplitter.js:60-89 | the validated scenes satisfy the validation invariant relating them to the packed scenes |
| `SceneSplitter.Clean` | backend/src/services/ai/textSplitter.js:10-14 | the cleaned text is trimmed, its only white space is single spaces, it has as many words as the input, and it is empty exactly when the input has no word; typographic quotes are replaced by the corrected normalisation (see Left out) |
| `SceneSplitter.CleanTokens` | backend/src/services/ai/textSplitter.js:10-14 | trimming, collapsing and quote replacement keep the number of words |
| `SceneSplitter.NormalizeQuotes` | backend/src/services/ai/textSplitter.js:13-14 | the intended normalisation: the length is kept, no typographic quote is left, every other character and all white space are untouched |
| `SceneSplitter.QuotesAsWrittenKeepCurlyQuotes` | backend/src/services/ai/textSplitter.js:13-14 | the replacements as written change no text at all, so `“Hi”` keeps its typographic quotes |
| `SceneSplitter.MatchesCover` | backend/src/services/ai/textSplitter.js:17 | the matched sentences together with the unterminated tail are exactly the text after any leading terminators: nothing in between is lost |
| `SceneSplitter.MatchesShape` | backend/src/services/ai/textSplitter.js:17 | every match is one run of non-terminators followed by one run of terminators |
| `SceneSplitter.SingleSentence` | backend/src/services/ai/textSplitter.js:17 | with no terminated sentence the whole cleaned text is the one sentence |
| `SceneSplitter.Sentences` | backend/src/services/ai/textSplitter.js:17 | the sentence list is never empty (the `|| [cleanText]` fallback) |
| `SubtitleCues.ClockOf` | backend/src/services/ai/textSplitter.js:109-114 | the fields of `formatTime` have minutes and seconds below 60 and milliseconds below 1000, add back up to the time, and the hours fit two digits below 100 h |
| `SubtitleCues.ClockOfValue` | backend/src/services/ai/textSplitter.js:109-114 | the field split is unique: a valid clock is recovered from its total |
| `SubtitleCues.FormatTimeRoundTrip` | backend/src/services/ai/textSplitter.js:109-116 | below 100 h a time prints as the 12 characters `HH:MM:SS,mmm` and parses back to itself |
| `SubtitleCues.ParseTimeRoundTrip` | backend/src/services/ai/textSplitter.js:115 | every string that parses as a timestamp is the print of its value |
| `SubtitleCues.ClockTextFields` | backend/src/services/ai/textSplitter.js:115 | the printed stamp has `:` at 2 and 5, `,` at 8 and the zero-padded fields in between |
| `SubtitleCues.TimingLineRoundTrip` | backend/src/services/ai/textSplitter.js:118-121 | the line `START --> END` parses back to the two times and holds no line break |
| `SubtitleCues.CueRoundTrip` | backend/src/services/ai/textSplitter.js:108-122 | a cue for a one-line text parses back to number `i+1`, start, end = start + duration and the text |
| `SubtitleCues.ParseCueOfLines` | backend/src/services/ai/textSplitter.js:121 | a text of three lines and an empty tail parses as the cue those lines describe |
| `JobModel.ParseStatus` | backend/src/models/Job.js:19-24 | only the four enum names parse, each to the status it names |
| `JobModel.StatusNameParses` | backend/src/models/Job.js:19-24 | every status is stored under a name that parses back to it |
| `JobModel.SettingsOf` | backend/src/models/Job.js:42-59 | absent settings default to voice `default`, style `realistic`, music on and subtitles on |
| `JobModel.NewJob` | backend/src/models/Job.js:3-105 | a new job is `pending` with progress 0, step `queued`, no error, URL, key or completion date, no scenes, resolution `1080x1920` at 30 fps |
| `JobModel.Validate` | backend/src/models/Job.js:4-30 | a save succeeds exactly when `jobId` and `inputText` are non-empty and progress is within 0..100 |
| `JobModel.RoundSeconds` | backend/src/models/Job.js:114 | `Math.round(d / 1000)` is the whole number of seconds within half a second of `d` |
| `JobModel.WithProgress` | backend/src/models/Job.js:120-124 | `updateProgress` sets progress and step and nothing else; the status is neither read nor changed |
| `JobModel.MarkedCompleted` | backend/src/models/Job.js:127-135 | completion sets `completed`, progress 100, URL, key, completion date and processingTime = `processingDuration`, and nothing else |
| `JobModel.MarkedFailed` | backend/src/models/Job.js:138-143 | failure sets `failed`, the error and the completion date, and leaves progress, processingTime and the URL as they were |
| `JobModel.MarksKeepValid` | backend/src/models/Job.js:127-143 | marking a valid job completed or failed keeps it valid, so those saves succeed |
| `JobModel.ProgressSaveIff` | backend/src/models/Job.js:25-30 | for a valid job, a progress update saves exactly when the new progress is within 0..100 |
| `JobModel.FailAfterComplete` | backend/src/models/Job.js:127-143 | with no status guard, failing a completed job ends `failed` and keeps progress 100 and the video URL |
| `JobModel.CompleteAfterFail` | backend/src/models/Job.js:127-143 | completing a failed job ends `completed` and keeps the old error message |
| `JobModel.DuplicateKeyError` | backend/src/models/Job.js:4-8 | the unique index's error: it carries MongoDB's E11000 code and names the duplicated `jobId` |
| `JobModel.JobStore.Create` | backend/src/models/Job.js:3-105 | creating a job stores the new default record exactly when it validates and its `jobId` is not already stored; a validation error is returned as is, and a stored `jobId` gives the duplicate-key error of the `unique: true` index (Job.js:4-8) with nothing written |
| `JobModel.JobStore.FindOne` | worker/processor.js:54 | `findOne({ jobId })` gives no document exactly when none is stored, else a fresh document holding the stored record |
| `JobModel.JobDoc.Save` | backend/src/models/Job.js:3-105 | a save validates the record and, when valid, stores it under its `jobId` and appends it to the save history |
| `JobModel.JobDoc.UpdateProgress` | backend/src/models/Job.js:120-124 | the document becomes `WithProgress` of the old record and is saved |
| `JobModel.JobDoc.MarkCompleted` | backend/src/models/Job.js:127-135 | the document becomes `MarkedCompleted` of the old record and is saved |
| `JobModel.JobDoc.MarkFailed` | backend/src/models/Job.js:138-143 | the document becomes `MarkedFailed` of the old record and is saved |
| `UserModel.NewUser` | backend/src/models/User.js:3-83 | the email and the name are stored trimmed, with their words unchanged; a new user is on plan `free` with 3 credits, no usage, subscription `none`, voice `default`, style `realistic`, notifications on, active |
| `UserModel.Validate` | backend/src/models/User.js:3-83 | a save succeeds exactly when email and name each hold a non-white character (the `required` check after `trim`) and plan and subscription status are enum values |
| `UserModel.BlankNameRejected` | backend/src/models/User.js:12-16 | a name of three spaces is trimmed to nothing and the save fails |
| `UserModel.Deducted` | backend/src/models/User.js:94-99 | a credit is taken only on the free plan with credits left; usage always counts one more video and records the date; nothing else changes |
| `UserModel.AddedCredits` | backend/src/models/User.js:104-105 | the amount is added to the credits as given, and nothing else changes |
| `UserModel.PlanName` | backend/src/models/User.js:110-117 | the three plans get their display names, and any other plan is `Unknown` |
| `UserModel.DeductNeverNegative` | backend/src/models/User.js:94-97 | deducting never takes credits below zero, leaves paid plans' credits alone and takes exactly one from a free user with credits |
| `UserModel.FreeAllowance` | backend/src/models/User.js:89-99 | after k videos a free user has `max(credits - k, 0)` credits, k more videos counted, and still has credits exactly when k < credits |
| `UserModel.PaidAlwaysHasCredits` | backend/src/models/User.js:89-99 | a paid plan keeps its credits and always has credits, however many videos are made |
| `UserModel.AddCreditsUnchecked` | backend/src/models/User.js:104-107 | with no sign check, a negative amount can leave a free user without credits |
| `UserModel.User.DeductCredit` | backend/src/models/User.js:94-101 | the document becomes `Deducted` of the old record and is saved when valid |
| `UserModel.User.AddCredits` | backend/src/models/User.js:104-107 | the document becomes `AddedCredits` of the old record and is saved when valid |
| `UserModel.User.Save` | backend/src/models/User.js:3-83 | a save stores the record exactly when it validates |
| `Environment.EnvOr` | backend/src/services/ai/imageGenerator.js:69 | `process.env.X \|\| fallback`: an unset or empty variable takes the fallback, any other value is used |
| `Environment.SplitJoined` | backend/src/services/video/renderService.js:253 | `dirname` and `basename` take a joined path apart again when the name holds no `/` |
| `Environment.FileSystem.ReadDir` | backend/src/services/video/renderService.js:250-251 | `readdirSync` lists exactly the names directly inside the directory, none holding a `/` |
| `Environment.FileSystem.CopyFile` | backend/src/services/video/ffmpegCommands.js:92-99 | a copy succeeds exactly when the source is a file and then duplicates its contents |
| `Environment.FileSystem.Unlink` | backend/src/services/video/renderService.js:258-265 | `unlinkSync` removes a file and throws exactly when there is no such file |
| `FfmpegCommands.ConcatLines` | backend/src/services/video/ffmpegCommands.js:48-50 | one `file '<p>'` line per input path, in order |
| `FfmpegCommands.ConcatListLines` | backend/src/services/video/ffmpegCommands.js:48-50 | splitting the list file at line breaks gives back exactly those lines, and the file ends in `'` (no trailing newline) |
| `FfmpegCommands.ConcatListNoBackslash` | backend/src/services/video/ffmpegCommands.js:49 | every `\` of the paths has become `/`: the list holds no backslash |
| `FfmpegCommands.ConcatListEmpty` | backend/src/services/video/ffmpegCommands.js:48-50 | no paths give an empty list file |
| `FfmpegCommands.FatalStage` | backend/src/services/video/ffmpegCommands.js:14-34 | a fatal stage leaves the encoder's bytes at the output on success; a failure throws the stage's wrapped message and writes nothing |
| `FfmpegCommands.PassThroughStage` | backend/src/services/video/ffmpegCommands.js:92-99 | a pass-through stage that fails copies its input to the output and still succeeds; only a missing input makes it throw |
| `FfmpegCommands.CreateSceneVideo` | backend/src/services/video/ffmpegCommands.js:14-34 | the scene clip is written on success, and a failure throws `Scene video creation failed: …` |
| `FfmpegCommands.ConcatenateVideos` | backend/src/services/video/ffmpegCommands.js:43-68 | the list file is written first; then the joined video is written, or `Video concatenation failed: …` is thrown |
| `FfmpegCommands.AddSubtitles` | backend/src/services/video/ffmpegCommands.js:77-100 | burning subtitles writes the encoder output, or a byte copy of the input on failure |
| `FfmpegCommands.AddBackgroundMusic` | backend/src/services/video/ffmpegCommands.js:110-131 | mixing music writes the encoder output, or a byte copy of the input on failure |
| `FfmpegCommands.OptimizeVideo` | backend/src/services/video/ffmpegCommands.js:194-214 | optimising writes the encoder output, or a byte copy of the input on failure |
| `FfmpegCommands.CreateThumbnail` | backend/src/services/video/ffmpegCommands.js:172-186 | the thumbnail frame at the given timestamp is written, or `Thumbnail creation failed: …` is thrown |
| `FfmpegCommands.MetadataOf` | backend/src/services/video/ffmpegCommands.js:145-153 | the reported width and height are never 0 |
| `FfmpegCommands.MetadataOnFailure` | backend/src/services/video/ffmpegCommands.js:154-161 | a failed probe gives 1080x1920 with duration 0 and size 0 |
| `FfmpegCommands.MetadataSize` | backend/src/services/video/ffmpegCommands.js:145-150 | the first stream's width and height are used when present and non-zero, else 1080 and 1920 |
| `FfmpegCommands.MetadataDuration` | backend/src/services/video/ffmpegCommands.js:151 | the format's duration wins over the stream's when it is truthy, and with neither the duration is 0 |
| `FfmpegCommands.ParseFloatOfMillis` | backend/src/services/video/ffmpegCommands.js:151 | `parseFloat` reads `S.mmm` as S seconds and mmm milliseconds |
| `FfmpegCommands.ParseFloatOfSeconds` | backend/src/services/video/ffmpegCommands.js:151 | `parseFloat` reads a whole number of seconds exactly |
| `RenderService.RenderService.constructor` | backend/src/services/video/renderService.js:13-39 | the service makes every missing working directory (temp scenes, temp final, assets music …) and touches no file |
| `RenderService.RenderService.RenderVideo` | backend/src/services/video/renderService.js:47-113 | on success every clip, the concatenation and the thumbnail ran, the object store accepted the optimised form of the assembled video under the video key and the thumbnail under the thumbnail key (so a failing put is an error), and the result holds the public URLs of those keys, the probed metadata and the scene count; a failure is `Video rendering failed: …`; the stages begun are a prefix of clips, concat, [subtitles], [music], optimise, thumbnail, probe, video upload, thumbnail upload, and all of them on success; music is never chosen when disabled; for a plain job id, afterwards no temporary file of the job is left and no other file differs |
| `RenderService.RenderService.Assemble` | backend/src/services/video/renderService.js:54-69 | the clips and concatenation decide the outcome; on success the disk is exactly `AssembledDisk`: the clips, the joined video with its list removed, then the subtitle burn only when enabled and the music mix only when a track was chosen, each reading the previous stage's output; the result is the last enabled stage's file; the stages begun are a prefix of `AssemblyPlan` |
| `RenderService.RenderService.Join` | backend/src/services/video/renderService.js:53-57 | it succeeds exactly when every clip and the join run; the disk is then the clips plus the joined video, with the list file removed, and the result is the joined video's path |
| `RenderService.RenderService.Dress` | backend/src/services/video/renderService.js:59-69 | with subtitles off the SRT and subtitled files are untouched, with music off no track is chosen and nothing is mixed; the disk is the burn of the concatenated video followed by the mix of whichever file step 3 left; only a music path that is a plain file fails |
| `RenderService.RenderService.MakeArtifacts` | backend/src/services/video/renderService.js:72-77 | on success the disk gains exactly the optimised video (the encoder's output, or a copy of the input) and the thumbnail cut from it; only a missing input with a failed optimise or a failed thumbnail makes it fail |
| `RenderService.RenderService.Publish` | backend/src/services/video/renderService.js:72-104 | it succeeds exactly when both artifacts are made and both puts pass, the optimised video's contents under `videos/<id>/<id>_final.mp4` and the thumbnail's under `_thumb.jpg`; on success the result is the public URLs of `videos/<id>/<id>_final.mp4` and `_thumb.jpg`, the probed duration and size, `<width>x<height>` and the scene count |
| `RenderService.RenderService.CreateSceneVideos` | backend/src/services/video/renderService.js:121-146 | success exactly when every scene's clip ran; the result is `<id>_scene_<i>.mp4` for each scene in index order; a failure is the first failing scene's error |
| `RenderService.RenderService.ConcatenateScenes` | backend/src/services/video/renderService.js:154-168 | the list file is written and then removed after a successful concatenation, whose output is returned |
| `RenderService.RenderService.AddSubtitlesToVideo` | backend/src/services/video/renderService.js:177-206 | the SRT file holds the cue fold over the scenes, and the burn result or a copy of the input is returned |
| `RenderService.RenderService.BurnSubtitleFile` | backend/src/services/video/renderService.js:195-205 | the burn writes the subtitled file or falls back to a copy; it fails only when both fail |
| `RenderService.RenderService.AddBackgroundMusicToVideo` | backend/src/services/video/renderService.js:214-236 | with no music directory or no `.mp3` in it the input is returned unchanged; otherwise one listed `.mp3` is mixed in at volume 0.3 |
| `RenderService.RenderService.UploadFile` | backend/src/utils/spacesClient.js:26-47 | the upload gives `<endpoint>/<bucket>/<key>` exactly when the file exists and the store accepts it, else `Failed to upload file: …` |
| `RenderService.RenderService.Cleanup` | backend/src/services/video/renderService.js:242-275 | exactly the files the two `<id>_*` patterns select are deleted, and it never throws |
| `RenderService.RenderService.SweepDir` | backend/src/services/video/renderService.js:250-268 | sweeping one directory deletes exactly its files whose names start with the prefix |
| `RenderService.CleanupRemovesJobFiles` | backend/src/services/video/renderService.js:242-275 | cleanup leaves exactly the files outside the job's temporary files: nothing in temp/images, temp/audio or elsewhere is touched |
| `RenderService.CleanupPatterns` | backend/src/services/video/renderService.js:244-247 | cleanup looks at two patterns, each a path with a directory part |
| `RenderService.PlainPattern` | backend/src/services/video/renderService.js:253-258 | for a plain job id the pattern's directory is the scenes or final directory and its prefix is `<id>_` |
| `RenderService.InputsAreNotJobTemp` | backend/src/services/video/renderService.js:242-275 | scene images and voice-overs are never among the files cleanup deletes |
| `RenderService.ScenePathsAt` | backend/src/services/video/renderService.js:121-146 | the clip list has one path per scene, path k being scene k's clip |
| `RenderService.CueDuration` | backend/src/services/video/renderService.js:186 | a falsy (zero) duration counts as three seconds, any other as itself |
| `RenderService.BuildSrt` | backend/src/services/video/renderService.js:182-193 | the cue loop builds exactly the cumulative-time fold `SrtText` |
| `RenderService.SceneCueFields` | backend/src/services/video/renderService.js:182-193 | cue i reads back as number i+1 from the sum of the earlier durations to that sum plus its own |
| `RenderService.SrtEntryAt` | backend/src/services/video/renderService.js:182-193 | the SRT text holds cue i followed by a line break at its place, for every scene |
| `RenderService.CueStartsIncrease` | backend/src/services/video/renderService.js:182-193 | each cue ends no later than any later cue starts |
| `RenderService.CueStartsExample` | backend/src/services/video/renderService.js:182-193 | durations 3.0, 4.5, 2.0 s start at 0, 3.0, 7.5 s and end at 3.0, 7.5, 9.5 s |
| `RenderService.FalsyDurationExample` | backend/src/services/video/renderService.js:186 | a zero duration followed by 2.0 s puts the second cue at 3.0 s to 5.0 s |
| `RenderService.Mp3Files` | backend/src/services/video/renderService.js:219-221 | the music candidates are exactly the listed names ending in `.mp3` |
| `ImageGenerator.PromptRoundTrip` | backend/src/services/ai/imageGenerator.js:244-260 | the prompt is `text, <bank>, high quality, …`, and the scene text can be read back from it |
| `ImageGenerator.PromptInjective` | backend/src/services/ai/imageGenerator.js:257 | different scene texts give different prompts under the same style |
| `ImageGenerator.UnknownStyleIsRealistic` | backend/src/services/ai/imageGenerator.js:245-256 | a style outside the six table keys, or none, uses the realistic phrase bank (inherited object members: see Left out) |
| `ImageGenerator.BackendOf` | backend/src/services/ai/imageGenerator.js:281-291 | `comfyui` selects ComfyUI, `a1111` selects A1111, anything else (also unset) local SD |
| `ImageGenerator.PollReadsFirstSixty` | backend/src/services/ai/imageGenerator.js:198-229 | the poll looks at no reply after the sixtieth attempt |
| `ImageGenerator.CompletedWithoutImageTimesOut` | backend/src/services/ai/imageGenerator.js:208-231 | a history marked completed with no image ends the poll in a timeout |
| `ImageGenerator.ReadyMeansCompleted` | backend/src/services/ai/imageGenerator.js:208-225 | an image is returned only from a completed history entry within the 60 attempts, and it is that entry's first saved image |
| `ImageGenerator.NeverCompletedTimesOut` | backend/src/services/ai/imageGenerator.js:198-231 | a prompt that never shows up in history times out |
| `ImageGenerator.PlaceholderWritten` | backend/src/services/ai/imageGenerator.js:313-321 | the placeholder is a copy of `assets/placeholder.png` when it exists, else an empty file |
| `ImageGenerator.ImageService.PollHistory` | backend/src/services/ai/imageGenerator.js:198-229 | the `while` loop ends as the bounded poll specification does |
| `ImageGenerator.ImageService.LocalSdShape` | backend/src/services/ai/imageGenerator.js:19-60 | local SD succeeds only when the output path exists afterwards, and touches no other file |
| `ImageGenerator.ImageService.A1111Shape` | backend/src/services/ai/imageGenerator.js:68-113 | A1111 returns the output path, which then holds the first image, or fails without touching the disk |
| `ImageGenerator.ImageService.ComfyShape` | backend/src/services/ai/imageGenerator.js:121-236 | ComfyUI returns the output path, which then holds the downloaded image, or fails without touching the disk |
| `ImageGenerator.ImageService.BackendResult` | backend/src/services/ai/imageGenerator.js:281-291 | whichever backend is configured, success means the output exists and only the output path was written |
| `ImageGenerator.ImageService.RemoteBackendsIgnoreDisk` | backend/src/services/ai/imageGenerator.js:68-236 | the two remote backends do not depend on which directories exist |
| `ImageGenerator.ImageService.GenerateWithLocalSD` | backend/src/services/ai/imageGenerator.js:19-60 | the method does what `LocalSdRun` describes: the venv interpreter when present, the escaped prompt, the existence check |
| `ImageGenerator.ImageService.GenerateWithA1111` | backend/src/services/ai/imageGenerator.js:68-113 | the method does what `A1111Run` describes, rejecting a reply with missing or empty `images` |
| `ImageGenerator.ImageService.GenerateWithComfyUI` | backend/src/services/ai/imageGenerator.js:121-236 | the method does what `ComfyRun` describes: queue, poll at most 60 times, download |
| `ImageGenerator.ImageService.GenerateWithBackend` | backend/src/services/ai/imageGenerator.js:281-291 | the dispatch runs the configured backend's run |
| `ImageGenerator.ImageService.CreatePlaceholderImage` | backend/src/services/ai/imageGenerator.js:307-324 | the placeholder copy or empty file is written; it fails only when the placeholder path is a directory |
| `ImageGenerator.ImageService.GenerateSceneImage` | backend/src/services/ai/imageGenerator.js:269-299 | the image goes to `temp/images/scene_<i>.png`; a backend failure is replaced by the placeholder at the same path and never escapes |
| `ImageGenerator.ImageService.GenerateImageAt` | backend/src/services/ai/imageGenerator.js:281-298 | the backend's image, or the placeholder when the backend fails |
| `JsText.EscapeRoundTrip` | backend/src/services/ai/imageGenerator.js:30 | escaping quotes loses nothing: unescaping gives the prompt back |
| `JsText.EveryQuoteEscaped` | backend/src/services/ai/imageGenerator.js:30 | every `"` of the escaped prompt has a `\` in front of it |
| `TtsGenerator.ElevenLabsVoice` | backend/src/services/ai/ttsGenerator.js:197-204 | a table voice id maps to its ElevenLabs id; any other id maps to the default voice |
| `TtsGenerator.VoiceTable` | backend/src/services/ai/ttsGenerator.js:197-204 | the mapped voice is one of three ids, and is not the default exactly for `male` and `british` |
| `TtsGenerator.AsWrittenAgreesOffPrototype` | backend/src/services/ai/ttsGenerator.js:204 | the lookup as written agrees with the table for every id that is not an inherited object member |
| `TtsGenerator.AsWrittenSendsFunctionText` | backend/src/services/ai/ttsGenerator.js:204 | as written, the id `toString` yields the text of a native function instead of the default voice |
| `TtsGenerator.EngineOf` | backend/src/services/ai/ttsGenerator.js:188-208 | `bark` selects Bark; unset, empty or `elevenlabs` selects ElevenLabs; any other name is an unknown engine |
| `TtsGenerator.MissingKeyMakesNoRequest` | backend/src/services/ai/ttsGenerator.js:18-22 | without an API key the call fails with `ElevenLabs API key not configured`, whatever the server or the converter would do |
| `TtsGenerator.ElevenLabsFiles` | backend/src/services/ai/ttsGenerator.js:17-64 | on success the WAV exists and the intermediate MP3 is gone; a failed conversion leaves the MP3 behind |
| `TtsGenerator.FloorProperties` | backend/src/services/ai/ttsGenerator.js:215 | the clamped duration is at least two seconds, leaves longer ones alone and is idempotent |
| `TtsGenerator.FailedProbeIsThreeSeconds` | backend/src/services/ai/ttsGenerator.js:159-170 | an unreadable probe counts as three seconds |
| `TtsGenerator.Mp3BesideWav` | backend/src/services/ai/ttsGenerator.js:49-50 | the MP3 of a scene's WAV is the `.mp3` beside it and never the WAV itself |
| `TtsGenerator.TtsService.EngineReturnsOutput` | backend/src/services/ai/ttsGenerator.js:188-208 | any engine that succeeds returns the output path and leaves it on disk; an unknown engine always fails |
| `TtsGenerator.TtsService.GenerateWithElevenLabs` | backend/src/services/ai/ttsGenerator.js:17-64 | the method does what `ElevenLabsRun` describes: key check, request, MP3 save, conversion, MP3 removal |
| `TtsGenerator.TtsService.GenerateWithBark` | backend/src/services/ai/ttsGenerator.js:73-101 | the method does what `BarkRun` describes: the script is written when missing, then its exit status decides |
| `TtsGenerator.TtsService.Speak` | backend/src/services/ai/ttsGenerator.js:188-208 | the configured engine's run, the voice id mapped for ElevenLabs by the corrected `ElevenLabsVoice` (see Left out) and passed unmapped to Bark |
| `TtsGenerator.TtsService.CreateSilentAudio` | backend/src/services/ai/ttsGenerator.js:235-247 | three seconds of silence are written at the path, or the failure propagates |
| `TtsGenerator.TtsService.SpeakAt` | backend/src/services/ai/ttsGenerator.js:188-226 | success gives the probed duration floored at two seconds; an engine failure gives three seconds of silence at the same path; only a failing fallback escapes |
| `TtsGenerator.TtsService.GenerateSceneAudio` | backend/src/services/ai/ttsGenerator.js:179-227 | the voice-over is always `temp/audio/scene_<i>.wav`; an absent voice id is `default`; the duration rules of `SpeakAt`; the voice mapping of `Speak` (see Left out) |
| `QuickImage.PickIndex` | backend/src/services/ai/quickImage.js:29 | `Math.floor(random * 5)` is an index of the colour list |
| `QuickImage.EveryPairReachable` | backend/src/services/ai/quickImage.js:29 | every one of the five pairs is chosen by some random number |
| `QuickImage.ColourPair` | backend/src/services/ai/quickImage.js:21-29 | the gradient colours are one of the five listed pairs |
| `QuickImage.WrapWords` | backend/src/services/ai/quickImage.js:43-57 | the `forEach` loop and the final push produce exactly the lines of the greedy wrap |
| `QuickImage.AddWord` | backend/src/services/ai/quickImage.js:48-55 | one iteration is one step of the wrap: break before the word when the test line is wider than 980, else extend the line |
| `QuickImage.WrapKeepsWords` | backend/src/services/ai/quickImage.js:43-57 | the wrapped lines hold all the words, in order, each once |
| `QuickImage.WrapLines` | backend/src/services/ai/quickImage.js:43-57 | there is at least one line, and the lines joined are each word followed by one space |
| `QuickImage.WrapIsGreedy` | backend/src/services/ai/quickImage.js:48-55 | every line of two or more words passed the width check each time a later word was added, and every break was forced by the width |
| `QuickImage.FirstLineEmpty` | backend/src/services/ai/quickImage.js:47-52 | the first line is empty exactly when the first word alone overflows the width |
| `QuickImage.LayoutRows` | backend/src/services/ai/quickImage.js:60-65 | line k is drawn at y = (1920 - 80 * lines) / 2 + 80k, rows are 80 apart, and the rows' mid-point is y = 920, 40 px above the canvas middle: `textBaseline = 'middle'` (quickImage.js:40) makes each y a row's vertical middle, while `startY` centres the block as if each y were a row's top |
| `QuickImage.DrawsOf` | backend/src/services/ai/quickImage.js:63-65 | one centred text draw per line at x = 540 and that line's row |
| `QuickImage.DrawLines` | backend/src/services/ai/quickImage.js:63-65 | the drawing loop issues exactly those draws |
| `QuickImage.GenerateQuickImage` | backend/src/services/ai/quickImage.js:11-77 | the PNG of the described picture is written at the output path (making its directory when missing) and the path is returned |
| `Processor.Round` | worker/processor.js:92 | `Math.round` gives the integer within half of x, halves rounded up |
| `Processor.SceneProgress` | worker/processor.js:91-92 | scene i's progress lies between the stage's base and base + 25 and is exactly base + 25 after the last scene |
| `Processor.SceneProgressMonotone` | worker/processor.js:91-92 | the per-scene progress never decreases from one scene to the next |
| `Processor.StageValuesShape` | worker/processor.js:77-125 | a stage's progress reports are non-decreasing, within base..base + 25, and end at exactly base + 25 (40 after images, 65 after audio) |
| `Processor.ProgressTrailShape` | worker/processor.js:64-149 | the progress saved from 10 onwards on a successful run never decreases, is 40 after the image stage and 65 after the audio stage, and ends at 100 |
| `Processor.LoopEventsShape` | worker/processor.js:77-125 | a stage makes its n calls in index order with n - 1 pauses between them and none after the last call |
| `Processor.ImagesBeforeVoices` | worker/processor.js:77-125 | once a voice-over has been requested no image request follows |
| `Processor.Summary` | worker/processor.js:128-132 | the persisted summary keeps each scene's index, text and duration and drops the paths |
| `Processor.RenderScenes` | worker/processor.js:140-144 | the renderer gets each scene's image, voice-over, text and duration in order |
| `Processor.MergedMetadata` | worker/processor.js:152-155 | for a probe that gave a size, the render's resolution, file size and scene count overwrite the stored metadata, and fps and the dimensions stay (a `NaN` size makes `Complete` fail before this) |
| `Processor.Timeline.Sleep` | worker/processor.js:94-97 | a pause is recorded on the timeline with its length |
| `Processor.Begin` | worker/processor.js:53-64 | a missing document fails with `Job document not found` and changes nothing; otherwise the job is saved `processing` and then at 10 %, `Splitting text into scenes` |
| `Processor.Report` | worker/processor.js:92 | a progress report changes only progress and step and appends one save |
| `Processor.ImageTurn` | worker/processor.js:78-97 | image turn i appends scene i (index i, text i, `scene_<i>.png`, no audio, duration 0), one save at scene i's progress, and the call and pause events |
| `Processor.ImageStage` | worker/processor.js:71-98 | the image stage saves 15 and then each scene's progress, ending at 40, builds one scene per text in order, and pauses n - 1 times for 1000 ms |
| `Processor.VoiceTurn` | worker/processor.js:107-124 | voice turn i sets scene i's audio path to `scene_<i>.wav` and its duration, leaves the later scenes alone, and saves scene i's progress |
| `Processor.AudioStage` | worker/processor.js:101-125 | the audio stage saves 40 and then each scene's progress, ending at 65, gives scene i the voice-over of index i, and pauses n - 1 times for 500 ms |
| `Processor.PersistScenes` | worker/processor.js:128-134 | the summary and `totalScenes = n` are saved exactly when every duration is a number |
| `Processor.Render` | worker/processor.js:140-144 | a rendered job's video key is `videos/<id>/<id>_final.mp4`, its URLs are the public ones of the two keys, and its scene count is n; failures read `Video rendering failed: …` |
| `Processor.Complete` | worker/processor.js:149-156 | the job is marked completed and saved; the second save, with thumbnail, duration and merged metadata, succeeds exactly when the probe gave a numeric duration and size, and otherwise rejects with the `Number` cast error and leaves the completed record stored |
| `Processor.Amend` | worker/processor.js:150-156 | the second save stores exactly the thumbnail, the duration and the merged metadata when the probe gave numbers, and otherwise rejects and stores nothing |
| `Processor.MetadataCastError` | backend/src/models/Job.js:72-89 | the rejection of a `NaN` duration or size is a `Job validation failed: ` error |
| `Processor.Finish` | worker/processor.js:137-164 | after the scenes are saved: progress 65, render, 95, completed at 100; the result is `{ success: true, jobId, videoUrl }`; an error is the render's `Video rendering failed: …` or, after the job was saved completed at 100, the second save's validation error |
| `Processor.Conclude` | worker/processor.js:146-156 | after the 95 % report the job is stored completed at 100 on both paths; success saves 95, 100, 100 with the URLs, the thumbnail and the scene count, and a failure is a `Job validation failed: ` error |
| `Processor.Recover` | worker/processor.js:166-176 | on failure the stored job, if any, is marked failed with the error message; the same message is rethrown |
| `Processor.Produce` | worker/processor.js:71-125 | all images are generated before any voice-over; scene i carries index i, text i and its voice-over; the progress trail is 15, images, 40, voices |
| `Processor.Pipeline` | worker/processor.js:128-164 | persisting saves the scenes at the current progress, then 65, 95, 100 and 100 are saved; the job is left completed with one summary entry per scene, in order |
| `Processor.Work` | worker/processor.js:66-164 | a successful run splits the text into n ≥ 1 scenes, saves the full progress trail, makes the calls in order and completes the job with the scenes in order |
| `Processor.Attempt` | worker/processor.js:53-164 | the body of the `try`: a missing job is `Job document not found`; success saves 10 onwards as the non-decreasing trail ending at 100 |
| `Processor.ProcessVideoGeneration` | worker/processor.js:47-177 | a missing job fails with `Job document not found` and changes nothing; success completes the job with its scenes in order after the non-decreasing progress trail ending at 100; any error on a valid job, including the `NaN`-metadata rejection after completion, leaves it `failed` with exactly the rethrown message |

## Left out

- Queue, retries and concurrency are left out: the BullMQ worker construction, its listeners and signal handlers (worker/processor.js:17-42, 179-233), backend/src/services/queue.js and worker/ecosystem.config.js. They are library configuration.
- The HTTP surface and the front-end are left out (backend/app.js, the route and controller files, the `frontend/` directory). They are request handling and UI, not pipeline logic. backend/src/services/ai/localSD.py is not part of this model: it is model inference.
- Effects outside the process are oracles with arbitrary outcomes: ffmpeg and ffprobe runs, ElevenLabs, Automatic1111 and ComfyUI replies, the S3 upload, the Bark program. Their real effects are not modelled.
- The Bark helper script's Python text (`createBarkScript`, ttsGenerator.js:107-152) is the parameter `barkScript`. Only the fact that it is written when missing is modelled.
- Canvas text measurement and the PNG encoder are the parameters `measure` and `render`. Fonts, gradients and pixels are not modelled.
- Randomness is a parameter: the choice of music track (`pick`), the ComfyUI seed, the gradient colour (`random`) and the generated uuid.
- Clocks are parameters. `new Date()` for completion, failure and usage dates is passed in.
- Pauses and timeouts are not timed. The processor's pauses between scenes are recorded as `Timeline` events. The ComfyUI poll's two-second wait between history requests (imageGenerator.js:203) is not recorded; only its bound of 60 requests is modelled. Subprocess timeouts are not modelled.
- JavaScript floating point is not modelled. Times are whole milliseconds and progress is exact rational arithmetic. `parseFloat` of probe output is read as whole milliseconds: the leading digits, then up to three decimals, with further decimals truncated (`3.134694` is 3134 ms). It yields `None` (the model's `NaN`) exactly when the text does not start with a digit, so `.5`, `-1.5` and `+2`, which JavaScript reads as numbers, are `None` here.
- Logging is left out throughout.
- Processor.PersistScenes: the error text for a scene without a numeric duration is a stand-in for mongoose's cast message, not its exact wording.
- Processor.Complete: the error text for a `NaN` duration or file size is a stand-in for mongoose's cast message, not its exact wording.
- FfmpegCommands.CreateSceneVideo: the command text is a `Command` value printed by `CommandLine`. The fact that scene commands differ only in their three paths holds by construction and is not proved as a separate lemma.
- UserModel.PlanName: does not model inherited object members as plan names (`plans['toString']`), because a stored plan is always one of the three enum values.
- UserModel.NewUser: the email's `lowercase` schema option is not modelled; `trim` is.
- SceneSplitter.Clean: uses the corrected `NormalizeQuotes` of the first Findings row, so typographic quotes become ASCII ones. As written (`NormalizeQuotesAsWritten`), `“Hi” he said.` keeps its quotes into the scene texts, prompts, subtitles and speech.
- SceneSplitter.SplitTextIntoScenes: inherits `Clean`'s quote correction; `SplitScenes` is the fold over the corrected cleaning.
- TtsGenerator.TtsService.Speak: maps voice ids with the corrected `ElevenLabsVoice` of the second Findings row, so `toString` or `constructor` get the default voice. As written (`ElevenLabsVoiceAsWritten`), the request goes to the text of the inherited function, and `voiceId` is an unrestricted string at the API (videoController.js:13).
- TtsGenerator.TtsService.GenerateSceneAudio: inherits `Speak`'s corrected voice mapping for inherited-member ids.
- ImageGenerator.UnknownStyleIsRealistic: does not model inherited object members as style names. `stylePrompts['toString']` finds a function, not the realistic bank; the request schema's style list (videoController.js:14) keeps such styles out, while the job schema (Job.js:47-50) has no enum for it.
- Environment.FileSystem.WriteFile: never fails. `writeFileSync` throws when the parent directory is missing or is a plain file (for example `scripts` as a plain file before the Bark script is written, ttsGenerator.js:109-150); the model does not check the parent.
- Environment.FileSystem.MakeDir: adds only the named directory and never fails. `mkdirSync(dir, { recursive: true })` (renderService.js:36, imageGenerator.js:272, ttsGenerator.js:110 and 182, quickImage.js:70) also creates every missing ancestor and throws ENOTDIR when an ancestor is a plain file. `temp/images` and `temp/audio` (imageGenerator.js:270, ttsGenerator.js:180) can be made before `temp` exists; the model then holds the child directory without its parent.
- JobModel.Validate: only the checks the pipeline can trip (`jobId`, `inputText`, progress range) are modelled. Enum checks are implied by the `Status` datatype. The unique index on `jobId` is checked by `JobStore.Create`, not by validation, as MongoDB checks it on insert.
- Processor.ProcessVideoGeneration: a failure on a stored job that itself fails validation is rethrown with the validation message and leaves the store unchanged. No stronger promise is made for that case.

## Findings

| source | as written | input that shows it | evidently intended | confidence | as-written member | corrected member |
|---|---|---|---|---|---|---|
| backend/src/services/ai/textSplitter.js:13-14 | the classes `["""]` and `[''']` hold only the ASCII quote they replace, so the replacements change nothing | `“Hi”` keeps its typographic quotes | typographic double and single quotes become `"` and `'` | not executed | `SceneSplitter.QuotesAsWrittenKeepCurlyQuotes` | `SceneSplitter.NormalizeQuotes` |
| backend/src/services/ai/ttsGenerator.js:204 | `elevenLabsVoices[voiceId] \|\| elevenLabsVoices.default` also finds members inherited from `Object.prototype` | voice id `toString` sends the text of a native function as the voice id | any id outside the table uses the default voice | not executed | `TtsGenerator.AsWrittenSendsFunctionText` | `TtsGenerator.ElevenLabsVoice` |

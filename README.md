# Call transcription service: a verified model of the call-status lifecycle

The system records phone calls and transcribes them. A call document moves from
`pending_transcription` to `transcription_in_progress`, then to `transcription_complete` or
`transcription_failed`. Any call moves to `transcription_deleted` when its transcription is
deleted. Two collections drive this: Calls and Transcriptions. A handful of sequential handlers
update them:

- two variants of the transcription pipeline:
  - the stand-alone server's (`server.js`), which retries each service call;
  - the service module's (`services/openaiService.js`), which downloads remote recordings to a
    temporary file and starts categorisation without waiting for it;
- the simulate-call routes that turn an uploaded audio file into a pending call;
- the status and list projections that the front end polls;
- the call and transcription controllers (create, read, list, update, delete);
- the telephony helpers: the voice-response script, the client guards and the recording-URL rule.

Modules:

- `CallModel`, `TranscriptionModel`: the record shapes, the closed status enumeration, defaults
  and validation.
- `Documents`: the two collections as a class `Database`. Its methods are the store operations
  the handlers use. It keeps two invariants:
  - `Valid()`: ids are never reused, callSid is unique and every stored call passed validation;
  - `Linked()`: a call's transcriptionId names an existing transcription of that call.
  Every handler preserves `Valid()`. Every handler also preserves `Linked()` whenever it held
  before, with one exception. `deleteTranscription` can break it when the write that unlinks
  the call throws.
- `Retry`: the retry loop and its backoff.
- `Pipeline`: the closing save-and-link steps the two pipelines share, and their effect log.
- `Server`, `OpenAIService`: the two pipeline variants.
- `Uploads`, `Simulation`, `TestRoutes`: the upload rules and the simulate-call routes.
- `Views`: the status and list projections.
- `CallController`, `TranscriptionController`: the controllers.
- `Twilio`: the telephony helpers.
- `Files`: the part of the file system a pipeline touches.
- `Text`, `Faults`, `Replies`, `Wrappers`: shared text helpers, error kinds, replies and
  Option/Result.

How the outside world is represented:

- External services are inputs, not calls.
  - A retried service call is a sequence of attempt outcomes.
  - A single service call is one outcome.
  - The recording fetch is the reply it gets.
  - Parsing the chat reply as JSON is folded into the reply: `JsonObject(analysis)` or `NotJson`.
- Store requests that can throw are named in a `failing` set of `StoreRequest` values. It is
  given to:
  - each pipeline and the categorisation step;
  - the simulate-call routes;
  - the two transcription handlers that write twice (create and delete).
- The clock is a `now: nat` parameter.
- Work a route starts without waiting for it is returned as a `Trigger` value.
- Each pipeline returns a ghost log of its external effects, in order, so that ordering claims
  can be stated. Examples: the in-progress write comes before any service call; the failed write
  comes last.

Where the code departs from its own comments and evident intent, the model follows the code:

- The temporary recording file is removed only after a successful transcription. A failed run
  leaves it on disk.
- `deleteCall` removes only the call. Its transcriptions stay, still naming the deleted call.
- A failed run only writes the status, so a call that already had a transcription keeps its
  transcriptionId while `transcription_failed`.
- A rejected upload is not answered with 400 by the route. The upload middleware's error reaches
  the framework's error handling instead. In `server.js` the error middleware is registered
  before the routes, so the default handler answers.
- In `server.js` a failed analysis fails the whole run and the call.
- When linking the call fails after the transcription is saved, that transcription stays stored
  without any call referring to it. This holds in both pipelines and in `createTranscription`.
- When `deleteTranscription` has removed the transcription and then unlinking the call throws,
  the call keeps a transcriptionId naming the deleted transcription.
- In the service module, if marking the call failed throws, that error replaces the original one.

## Model

| member | source | states |
|---|---|---|
| CallModel.ParseStatus | models/Call.js:30-40 | a status text is admitted by the enum validator exactly when it is the stored name of one of the five statuses |
| CallModel.StatusRoundTrip | models/Call.js:32-38 | every status's stored name reads back as that status |
| CallModel.NewCall | models/Call.js:5-53 | validation fails exactly when callSid, from or to is missing or empty, and names exactly those paths; otherwise the call has the given fields, duration 0 unless given, status `pending_transcription` unless given, no transcriptionId, empty metadata and both timestamps `now` |
| CallModel.InsertKeepsCallSidsUnique | models/Call.js:6-10 | adding a call whose callSid no stored call carries keeps the callSid index unique |
| TranscriptionModel.NewTranscription | backend/models/Transcription.js:5-40 | validation fails exactly when callId or a non-empty text is missing; otherwise confidence defaults to 0, tags and categories to empty lists, summary stays absent unless given, both timestamps are `now` |
| Documents.ApplyCallUpdate | models/Call.js:26-40 | an update by id changes nothing when no call has that id; otherwise it changes that call's status (and, for a link, its transcriptionId) and nothing else |
| Documents.LaterStatusWins | server.js:258-260 | a status write followed by another write to the same call leaves what the second write alone leaves |
| Documents.UpdateKeepsReferences | controllers/transcriptionController.js:53-56 | status writes, unlinking and links to a transcription of that call keep every call's transcriptionId backed by a transcription of that call |
| Documents.NewestFirst | backend/controllers/callController.js:10 | the ids come out once each, every id appears, and creation times never increase along the list |
| Documents.AllCalls | backend/controllers/callController.js:8-18 | the call listing holds every stored call exactly once, with its document, ordered by createdAt descending |
| Documents.AllTranscriptions | controllers/transcriptionController.js:7-20 | the transcription listing holds every stored transcription exactly once, with its document, ordered by createdAt descending |
| Documents.FindById | backend/controllers/callController.js:23-26 | lookup by id yields 404 exactly when no document has that id, otherwise that document |
| Documents.Database.InsertCall | models/Call.js:6-10 | saving a call fails with a duplicate-key error exactly when its callSid is taken, changing nothing; otherwise the call is stored under a fresh id and nothing else changes |
| Documents.Database.InsertTranscription | controllers/transcriptionController.js:50 | saving a transcription stores it under a fresh id and changes no call |
| Documents.Database.UpdateCall | controllers/transcriptionController.js:53-56 | reports whether the call exists, applies the update, leaves the transcriptions alone, and keeps the references backed when the link it writes is backed |
| Documents.Database.RemoveCall | backend/controllers/callController.js:87 | returns the removed call if there was one; only that call leaves the store |
| Documents.Database.RemoveTranscription | controllers/transcriptionController.js:100 | returns the removed transcription if there was one; only that transcription leaves the store |
| Documents.Database.ReplaceTranscription | controllers/transcriptionController.js:75-79 | replaces one stored transcription that keeps its owning call; the calls and the references are unaffected |
| Retry.FirstSuccess | server.js:214-216 | the index of the first resolving attempt: every earlier attempt threw |
| Retry.WithRetry | server.js:211-233 | the loop returns what the attempt outcomes determine, invokes the operation as often as they determine, and sleeps the doubling backoff between attempts but not after the last one |
| Retry.BackoffAt | server.js:222-227 | the i-th sleep is `delay * 2^i` |
| Retry.BackoffDoubles | server.js:226 | each sleep is twice the one before it |
| Retry.RetryReturnsFirstSuccess | server.js:214-228 | k failures followed by a success, with k below the bound, give exactly k+1 invocations and the successful value |
| Retry.RetryRethrowsLastError | server.js:214-232 | when every attempt throws, there are exactly maxRetries invocations and the last attempt's error is rethrown |
| Retry.RetryIsBounded | server.js:214-216 | there are never more than maxRetries invocations; every invocation but the last threw; a value is returned exactly when the last invocation resolved, and it is that invocation's value |
| Uploads.CheckUpload | server.js:136-147 | a file is accepted exactly when its MIME type starts with `audio/` and its size is at most 10 MiB; a non-audio file is refused for its type whatever its size (the same rules as routes/testRoutes.js:31-42) |
| Uploads.AcceptanceIsDownwardClosed | routes/testRoutes.js:31-42 | a smaller file of an accepted type is accepted too |
| Uploads.UploadBoundaries | routes/testRoutes.js:33-40 | exactly 10 MiB is accepted and one byte more is not; `audio`, `video/mp4` and `Audio/mpeg` are refused as not audio |
| Simulation.OrDefault | routes/testRoutes.js:54-55 | an undefined or empty value falls back to the default, any other value is kept |
| Simulation.SimulatedCallSid | routes/testRoutes.js:53 | the callSid of a simulated call is `test-` followed by the millisecond clock |
| Simulation.SimulatedCallSidsDistinct | server.js:367 | simulated calls made at different milliseconds have different callSids |
| Simulation.SimulatedCall | routes/testRoutes.js:52-58 | the simulated call passes validation, uses the posted or default caller number and the configured or default own number, records the uploaded file's path, and is pending with no transcription |
| Simulation.SimulateCall | routes/testRoutes.js:45-76 | no file gives 400 and a rejected file the middleware's refusal, both storing nothing; a new call is stored exactly when the file is accepted, the save does not throw and the callSid is free, answered 201 with its id; a throwing save or a taken callSid gives 500 with nothing stored; transcriptions are never touched |
| Server.SimulateCall | server.js:353-407 | the shared route's outcome (a throwing save gives 500 and stores nothing), and a stored call starts the server pipeline on the uploaded path; nothing starts otherwise |
| TestRoutes.SimulateCall | routes/testRoutes.js:45-76 | the shared route's outcome (a throwing save gives 500 and stores nothing), and a stored call starts the service pipeline on the uploaded path as a local file; nothing starts otherwise |
| Server.AnalysedRecord | server.js:310-317 | the saved record holds the transcript, confidence 0.9 and the analysis's summary, categories and tags, with empty lists for those the analysis leaves out |
| Server.CallServices | server.js:264-307 | the analysis is requested only after a transcript is in hand; each service is invoked as often as the retry loop determines; the outcome is the first error (transcription, analysis, unparsable reply) or the transcript with its analysis |
| Server.AnalyseAndStore | server.js:264-328 | after the in-progress write: the run fails exactly as the services, validation, saving or linking fail; on success exactly one transcription is stored and the call is linked to it as complete |
| Server.RunSteps | server.js:252-336 | the in-progress write comes first, before any service call; the run's error is that of the first failing step; on success one transcription is stored and the call ends linked and complete |
| Server.ProcessCallRecording | server.js:251-350 | on failure the original error is rethrown, the call ends `transcription_failed` (unless that write fails, which is swallowed) and keeps the transcriptionId it had; a linking failure leaves the saved transcription unreferenced; any other failure stores none; the failed write is the last effect |
| Server.ExhaustedTranscriberFailsRun | server.js:268-275 | when all three transcription attempts throw, the run fails with the last attempt's error |
| Server.TransientFailuresAreAbsorbed | server.js:268-304 | when each service resolves within three attempts with a non-empty transcript and the store takes every write, the run succeeds |
| Server.CleanupFile | server.js:236-248 | the file is gone afterwards and nothing else on disk changes |
| Pipeline.TempPath | services/openaiService.js:44 | the temporary recording path lies in the temporary directory and is named `recording-`, then the call id's hexadecimal numeral, then `.mp3` |
| Pipeline.TempPathsDistinct | services/openaiService.js:44 | two calls never share a temporary recording path |
| Pipeline.FailedRunCalls | server.js:337-349 | after a failed run, only the run's call changes; it keeps its transcriptionId and ends `transcription_failed` when that write succeeds |
| Pipeline.SaveAndLink | services/openaiService.js:66-78 | the save fails on an invalid record or a failing store and stores nothing; otherwise the record is stored under a fresh id, then the call is linked to it as complete; a failing link leaves the record stored; the link write comes after the save |
| Files.Disk.Write | services/openaiService.js:45 | writing creates or overwrites exactly that file |
| Files.Disk.Remove | services/openaiService.js:61-63 | removing deletes exactly that existing file |
| Twilio.VoiceResponse.Say | backend/services/twilioService.js:26-32 | a say verb is appended to the script |
| Twilio.VoiceResponse.Record | backend/services/twilioService.js:35-41 | a record verb is appended to the script |
| Twilio.GenerateVoiceResponse | backend/services/twilioService.js:22-53 | the script is exactly: greeting, then recording to `/api/calls/recording-status` (120 s at most, beep, 5 s timeout, no provider transcription), then farewell |
| Twilio.GetCallDetails | backend/services/twilioService.js:56-68 | without a client the lookup fails as not initialised; otherwise it yields the call with that sid or fails naming the sid |
| Twilio.GetRecordingDetails | backend/services/twilioService.js:71-83 | without a client the lookup fails as not initialised; otherwise it yields the recording with that sid or fails naming the sid |
| Twilio.AuthenticatedUrl | backend/services/twilioService.js:94-96 | the URL is kept as a prefix, followed by `&` when it already has a `?` and by `?` otherwise, then `AccountSid=` and the sid (`undefined` when unset) |
| Twilio.AuthenticatedUrlHasOneQuery | backend/services/twilioService.js:94-96 | a URL with at most one `?` has exactly one after authentication |
| Twilio.RecordingFetchUrl | backend/services/twilioService.js:89-98 | a reference starting with `/` is never fetched; any other is fetched at its authenticated URL |
| Twilio.DownloadRecording | backend/services/twilioService.js:86-112 | a local reference comes back unchanged; otherwise a 2xx answer yields its bytes, any other answer fails with its status and a failed fetch fails with its cause |
| OpenAIService.PlainRecord | services/openaiService.js:66-70 | the saved record holds the transcript and confidence 0.9, with no summary and empty categories and tags |
| OpenAIService.Thrown | services/openaiService.js:84-91 | a failed run rethrows its original error unless marking the call failed throws, whose error then replaces it |
| OpenAIService.PrepareAudio | services/openaiService.js:33-46 | a local file is used as given and nothing is written; a remote recording is downloaded and written to the call's temporary path, or the download's error is returned with nothing written |
| OpenAIService.ServiceRunFaultSplits | services/openaiService.js:36-78 | past the in-progress write, a run fails as its transcript step fails, and otherwise as saving and linking that transcript fails |
| OpenAIService.Transcribe | services/openaiService.js:36-63 | the transcript or the first error (download, transcription); the temporary file is removed only after a successful transcription of a downloaded recording |
| OpenAIService.TranscribeAndStore | services/openaiService.js:36-78 | after the in-progress write: the run's error is that of the first failing step; on success one plain transcription is stored, the call is linked to it as complete and the temporary file is gone |
| OpenAIService.RunSteps | services/openaiService.js:27-83 | the in-progress write precedes the download and the transcription; the disk holds the downloaded file exactly when transcription failed after a download |
| OpenAIService.ProcessCallRecording | services/openaiService.js:22-92 | on success the call is linked and complete before categorisation of the new transcription starts; on failure the call ends `transcription_failed` unless that write throws, keeps its transcriptionId, and the error is rethrown |
| OpenAIService.Categorised | services/openaiService.js:124-129 | missing categories and tags become empty lists and a missing summary the empty text; no other field changes |
| OpenAIService.ProcessCategorization | services/openaiService.js:95-136 | a throwing read, a missing transcription or empty text, a failing chat call, an unparsable reply or a throwing write of the analysis fails with that error, in that order, and changes nothing; otherwise only that transcription is rewritten with the defaulted analysis; calls never change |
| Views.Populated | routes/testRoutes.js:81 | the referenced transcription when it still exists, otherwise nothing |
| Views.CallStatus | server.js:180-208 | 404 exactly for an unknown id; otherwise the call's status and numbers, with a transcription part exactly when its reference resolves, carrying that transcription's text, summary, categories and tags |
| Views.StatusShowsLinkedTranscription | routes/testRoutes.js:92-99 | with intact references, the transcription part is null exactly when the call has no transcriptionId, and it shows the call's own transcription |
| Views.ListEntry | routes/testRoutes.js:116-128 | a list entry carries the call's id, status, numbers and creation time, with a transcription part exactly when the reference resolves, holding that transcription's text and summary |
| Views.CallList | routes/testRoutes.js:110-137 | the call list has one entry per stored call |
| Views.CallListIsNewestFirst | routes/testRoutes.js:112-128 | the call list shows every stored call exactly once, each as its list entry, ordered by createdAt descending |
| CallController.CreatedCall | backend/controllers/callController.js:55-65 | the posted fields are validated as a call; the status is always `pending_transcription` and there is no transcriptionId |
| CallController.CreateCall | backend/controllers/callController.js:53-82 | a valid call with a free callSid is stored and answered 201; validation or duplicate failures give 500 and store nothing; the pipeline starts on the recording URL exactly when one is present |
| CallController.GetCallById | backend/controllers/callController.js:21-34 | 404 exactly for an unknown id, otherwise 200 with the call |
| CallController.DeleteCall | backend/controllers/callController.js:85-98 | 404 exactly for an unknown id; only the call is removed and the transcriptions stay |
| CallController.DeletedCallIsGone | backend/controllers/callController.js:87-90 | after a delete, both the call lookup and the status route answer 404 for that id |
| TranscriptionController.CreateTranscription | controllers/transcriptionController.js:39-68 | a transcription with callId and non-empty text is stored under a fresh id with the schema defaults, and the call it names is linked to it as complete (201). A validation failure or a failing save gives 500 and changes nothing. A failing link gives 500 and leaves the transcription stored and unreferenced |
| TranscriptionController.CreatedTranscriptionIsShown | controllers/transcriptionController.js:53-56 | after creating a transcription for a stored call, that call's status reply is complete and shows the new transcription |
| TranscriptionController.GetTranscriptionById | controllers/transcriptionController.js:23-36 | 404 exactly for an unknown id, otherwise 200 with the transcription |
| TranscriptionController.Edited | controllers/transcriptionController.js:75-79 | the edit sets text and confidence where they are given, sets the update time and changes no other field |
| TranscriptionController.EditIsIdempotent | controllers/transcriptionController.js:75-79 | sending the same edit twice leaves the document as sending it once |
| TranscriptionController.UpdateTranscription | controllers/transcriptionController.js:71-95 | 404 exactly for an unknown id, changing nothing; otherwise the stored document becomes the edited one, which is returned; calls never change |
| TranscriptionController.DeleteTranscription | controllers/transcriptionController.js:98-122 | a failing delete gives 500 and changes nothing; otherwise 404 exactly for an unknown id, changing nothing. A failing unlink gives 500 with the transcription gone and the calls untouched. Otherwise the transcription is removed and its call loses its transcriptionId and becomes `transcription_deleted`, whatever its status was. The references stay intact unless the unlink fails |
| TranscriptionController.FailedUnlinkLeavesDanglingReference | controllers/transcriptionController.js:100-110 | when the unlink after a delete fails, the call that held the transcription names a missing document, and its status reply shows no transcription |
| TranscriptionController.UnlinkKeepsReferences | controllers/transcriptionController.js:100-110 | removing a transcription and unlinking its call keeps every remaining reference backed |

## Left out

- Express, CORS, logging, static files, environment checks, the database connection and the
  server start-up are framework wiring and are not modelled.
- The OpenAI and Twilio calls are not performed. Their outcomes are inputs. `JSON.parse` is
  folded into the chat reply.
- Timers are not modelled. The retry loop's sleeps become returned values. The three-second
  delay before the server pipeline starts (server.js:379-392) is dropped: the trigger carries no
  delay.
- Concurrency is not modelled. Fire-and-forget runs are returned as triggers and each run is one
  sequential call, so two runs on one call cannot interleave.
- Server.CallServices: the same read stream is handed to every transcription attempt. A retry
  after a partial read may see a drained stream. Attempts are modelled as independent outcomes.
- Pipeline.TempPath: an ObjectId is rendered here as an unpadded hexadecimal numeral of a natural
  number, and `path.join` normalisation of the temporary directory is not modelled.
- Files.Disk.Write, Files.Disk.Remove: a write or unlink that throws is not modelled.
- CallController.CreateCall, CallController.DeleteCall, CallController.GetCallById,
  TranscriptionController.UpdateTranscription, TranscriptionController.GetTranscriptionById and
  the list and status routes make a single store request. When that request throws, the
  handler answers 500 and nothing changes. Such a failure is not modelled. Every other store
  request of the core is in `StoreRequest`. That covers the pipelines' writes, categorisation's
  read and write, the simulate-call save and the two-write transcription handlers.
- Ids are natural numbers. A malformed id string makes Mongoose throw a CastError, which the
  handlers answer with 500 rather than 404. The model does not cover that case.
- Some detached runs have rejections that nothing handles. What such a rejection does to the
  process (termination on recent Node versions) is not modelled. The runs are:
  - the service pipeline started by the call controller and by the test route;
  - the categorisation that `processCallRecording` in the service module starts without
    awaiting it (the `categorise` output of OpenAIService.ProcessCallRecording), whose catch
    block rethrows.
- `handleIncomingCall` (backend/controllers/callController.js:37-50) is modelled only through
  Twilio.GenerateVoiceResponse. The TwiML rendering and the response content type are not
  modelled.
- Mongoose is taken to drop undefined keys from updates and to skip validators on
  `findByIdAndUpdate`. So an update without text or confidence keeps the old value, and an empty
  text is stored as sent.
- A JSON `null` in a request body is not distinguished from an absent field.
- A call's `duration` and a transcription's `confidence` are JavaScript numbers. They are
  modelled as `real`, which has no NaN, no infinities and no rounding.
- Uploads.UploadBoundaries: accepting a file of exactly `MaxUploadBytes` follows multer's
  documented reading of `fileSize` as the largest allowed size. The source pins no multer or
  busboy version, and whether the boundary byte is accepted depends on that version.
- The upload middleware's error reply has no status code here. Its response is produced outside
  the handlers.
- Several lemmas in the table follow from the definitions they relate without further proof.
  They state consequences of those definitions; the retry lemmas, for example, restate the loop's
  outcome for particular attempt sequences.
- `backend/controllers/callController.js` imports the service module from a `backend/` path.
  This model takes that module to be `services/openaiService.js`.

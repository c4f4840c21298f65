/** The stand-alone server's call pipeline: mark the call in progress, transcribe and analyse
    the recording (each service call retried), store the analysed transcription and link it to
    the call; any failure marks the call failed and is rethrown. Also its simulate-call route
    and its file clean-up helper. */
module Server {
  import opened Wrappers
  import opened Faults
  import opened CallModel
  import opened TranscriptionModel
  import opened Retry
  import opened Documents
  import opened Pipeline
  import opened Files
  import opened Uploads
  import opened Replies
  import Simulation

  /** The fields the pipeline saves: the transcribed text, the placeholder confidence and the
      analysis's summary, categories and tags. */
  function AnalysedFields(callId: Id, text: string, a: Analysis): TranscriptionFields {
    TranscriptionFields(
      callId := Some(callId),
      text := Some(text),
      confidence := Some(PlaceholderConfidence),
      tags := a.tags,
      categories := a.categories,
      summary := a.summary)
  }

  /** The record saved for a non-empty transcript: lists the analysis leaves out take the
      schema's empty default, a missing summary stays missing. */
  function AnalysedRecord(callId: Id, text: string, a: Analysis, now: nat): (t: Transcription)
    requires text != ""
    ensures t.callId == callId && t.text == text && t.confidence == PlaceholderConfidence
    ensures t.summary == a.summary
    ensures t.categories == (if a.categories.Some? then a.categories.value else [])
    ensures t.tags == (if a.tags.Some? then a.tags.value else [])
    ensures t.createdAt == now && t.updatedAt == now
  {
    NewTranscription(AnalysedFields(callId, text, a), now).value
  }

  /** What the two service calls deliver: the transcript (from up to three transcription
      attempts) and the parsed analysis (from up to three analysis attempts, which are only
      made once a transcript is in hand). */
  function ServicesOutcome(whisper: seq<Attempt<string, ApiError>>, chat: seq<Attempt<ChatReply, ApiError>>)
    : Result<(string, Analysis), Fault>
    requires DefaultMaxRetries <= |whisper| && DefaultMaxRetries <= |chat|
  {
    match Retried(whisper, DefaultMaxRetries)
    case Rethrown(e) => Err(ServiceFailed(e))
    case Returned(text) => (
      match Retried(chat, DefaultMaxRetries)
      case Rethrown(e) => Err(ServiceFailed(e))
      case Returned(reply) => if reply.NotJson? then Err(MalformedAnalysis) else Ok((text, reply.analysis)))
  }

  /** The record a run saves when both services deliver and the transcript is not empty. */
  function RunRecord(callId: Id, whisper: seq<Attempt<string, ApiError>>, chat: seq<Attempt<ChatReply, ApiError>>, now: nat)
    : (t: Option<Transcription>)
    requires DefaultMaxRetries <= |whisper| && DefaultMaxRetries <= |chat|
    ensures t.Some? <==> ServicesOutcome(whisper, chat).Ok? && ServicesOutcome(whisper, chat).value.0 != ""
    ensures t.Some? ==>
      var (text, a) := ServicesOutcome(whisper, chat).value;
      t.value == AnalysedRecord(callId, text, a, now)
  {
    match ServicesOutcome(whisper, chat)
    case Ok((text, a)) => if text != "" then Some(AnalysedRecord(callId, text, a, now)) else None
    case Err(_) => None
  }

  /** The error a run throws, if any: that of the first step to fail, in the order the run takes
      them (the in-progress write, transcription, analysis, parsing, saving, linking). */
  function ServerRunFault(whisper: seq<Attempt<string, ApiError>>, chat: seq<Attempt<ChatReply, ApiError>>,
                          failing: set<StoreRequest>): Option<Fault>
    requires DefaultMaxRetries <= |whisper| && DefaultMaxRetries <= |chat|
  {
    if MarkInProgress in failing then Some(StoreUnavailable(MarkInProgress))
    else
      match ServicesOutcome(whisper, chat)
      case Err(f) => Some(f)
      case Ok((text, _)) =>
        if text == "" then Some(ValidationFailed({"text"}))
        else if SaveTranscription in failing then Some(StoreUnavailable(SaveTranscription))
        else if MarkComplete in failing then Some(StoreUnavailable(MarkComplete))
        else None
  }

  /** The two retried service calls of a run. */
  method CallServices(recordingPath: string, whisper: seq<Attempt<string, ApiError>>,
                      chat: seq<Attempt<ChatReply, ApiError>>)
    returns (r: Result<(string, Analysis), Fault>, ghost effects: seq<Effect>)
    requires DefaultMaxRetries <= |whisper| && DefaultMaxRetries <= |chat|
    ensures r == ServicesOutcome(whisper, chat)
    ensures effects == [TranscriberCalls(recordingPath, Invocations(whisper, DefaultMaxRetries))] +
      (if Retried(whisper, DefaultMaxRetries).Returned? then [AnalyserCalls(Invocations(chat, DefaultMaxRetries))] else [])
  {
    var transcribed, transcriberCalls, transcriberSleeps := WithRetry(whisper, DefaultMaxRetries, DefaultDelayMs);
    effects := [TranscriberCalls(recordingPath, transcriberCalls)];
    if transcribed.Rethrown? {
      return Err(ServiceFailed(transcribed.error)), effects;
    }
    var analysed, analyserCalls, analyserSleeps := WithRetry(chat, DefaultMaxRetries, DefaultDelayMs);
    effects := effects + [AnalyserCalls(analyserCalls)];
    if analysed.Rethrown? {
      r := Err(ServiceFailed(analysed.error));
    } else if analysed.value.NotJson? {
      r := Err(MalformedAnalysis);
    } else {
      r := Ok((transcribed.value, analysed.value.analysis));
    }
  }

  /** The steps after the in-progress write: call the services, then save and link the record. */
  method AnalyseAndStore(db: Database, callId: Id, recordingPath: string,
                         whisper: seq<Attempt<string, ApiError>>, chat: seq<Attempt<ChatReply, ApiError>>,
                         failing: set<StoreRequest>, now: nat)
    returns (r: Result<Id, Fault>, ghost effects: seq<Effect>)
    requires db.Valid() && MarkInProgress !in failing
    requires DefaultMaxRetries <= |whisper| && DefaultMaxRetries <= |chat|
    modifies db
    ensures db.Valid() && (old(db.Linked()) ==> db.Linked())
    ensures r.Err? <==> ServerRunFault(whisper, chat, failing).Some?
    ensures r.Err? ==> r.error == ServerRunFault(whisper, chat, failing).value
    ensures r.Ok? ==> r.value == old(db.nextId) && RunRecord(callId, whisper, chat, now).Some?
    ensures r.Ok? ==>
      db.transcriptions == old(db.transcriptions)[r.value := RunRecord(callId, whisper, chat, now).value]
    ensures r.Ok? ==> db.calls == ApplyCallUpdate(old(db.calls), callId, SetLink(Some(r.value), TranscriptionComplete))
    ensures r.Err? ==> db.calls == old(db.calls)
    ensures r.Err? && r.error == StoreUnavailable(MarkComplete) ==>
      RunRecord(callId, whisper, chat, now).Some? &&
      db.transcriptions == old(db.transcriptions)[old(db.nextId) := RunRecord(callId, whisper, chat, now).value]
    ensures r.Err? && r.error != StoreUnavailable(MarkComplete) ==> db.transcriptions == old(db.transcriptions)
    ensures |effects| >= 1 && effects[0] == TranscriberCalls(recordingPath, Invocations(whisper, DefaultMaxRetries))
    ensures r.Ok? ==> effects == [
      TranscriberCalls(recordingPath, Invocations(whisper, DefaultMaxRetries)),
      AnalyserCalls(Invocations(chat, DefaultMaxRetries)),
      TranscriptionSave,
      LinkWrite(callId, r.value)]
  {
    var delivered, serviceEffects := CallServices(recordingPath, whisper, chat);
    effects := serviceEffects;
    if delivered.Err? {
      return Err(delivered.error), effects;
    }
    var (text, analysis) := delivered.value;
    var closing, closingEffects := SaveAndLink(db, callId, AnalysedFields(callId, text, analysis), failing, now);
    effects := effects + closingEffects;
    r := closing;
  }

  /** The body of the pipeline's `try` block. */
  method RunSteps(db: Database, callId: Id, recordingPath: string,
                  whisper: seq<Attempt<string, ApiError>>, chat: seq<Attempt<ChatReply, ApiError>>,
                  failing: set<StoreRequest>, now: nat)
    returns (r: Result<Id, Fault>, ghost effects: seq<Effect>)
    requires db.Valid()
    requires DefaultMaxRetries <= |whisper| && DefaultMaxRetries <= |chat|
    modifies db
    ensures db.Valid() && (old(db.Linked()) ==> db.Linked())
    ensures r.Err? <==> ServerRunFault(whisper, chat, failing).Some?
    ensures r.Err? ==> r.error == ServerRunFault(whisper, chat, failing).value
    ensures r.Ok? ==> r.value == old(db.nextId) && RunRecord(callId, whisper, chat, now).Some?
    ensures r.Ok? ==>
      db.transcriptions == old(db.transcriptions)[r.value := RunRecord(callId, whisper, chat, now).value]
    ensures r.Ok? ==>
      db.calls == ApplyCallUpdate(StartedCalls(old(db.calls), callId, failing), callId,
                                  SetLink(Some(r.value), TranscriptionComplete))
    ensures r.Err? ==> db.calls == StartedCalls(old(db.calls), callId, failing)
    ensures r.Err? && r.error == StoreUnavailable(MarkComplete) ==>
      RunRecord(callId, whisper, chat, now).Some? &&
      db.transcriptions == old(db.transcriptions)[old(db.nextId) := RunRecord(callId, whisper, chat, now).value]
    ensures r.Err? && r.error != StoreUnavailable(MarkComplete) ==> db.transcriptions == old(db.transcriptions)
    ensures MarkInProgress in failing ==> effects == [StatusWrite(callId, TranscriptionInProgress)]
    ensures MarkInProgress !in failing ==>
      |effects| >= 2 && effects[..2] == [StatusWrite(callId, TranscriptionInProgress),
                                         TranscriberCalls(recordingPath, Invocations(whisper, DefaultMaxRetries))]
    ensures r.Ok? ==> effects == [
      StatusWrite(callId, TranscriptionInProgress),
      TranscriberCalls(recordingPath, Invocations(whisper, DefaultMaxRetries)),
      AnalyserCalls(Invocations(chat, DefaultMaxRetries)),
      TranscriptionSave,
      LinkWrite(callId, r.value)]
  {
    effects := [StatusWrite(callId, TranscriptionInProgress)];
    if MarkInProgress in failing {
      r := Err(StoreUnavailable(MarkInProgress));
      return;
    }
    var found := db.UpdateCall(callId, SetStatus(TranscriptionInProgress));
    var stored, storedEffects := AnalyseAndStore(db, callId, recordingPath, whisper, chat, failing, now);
    effects := effects + storedEffects;
    r := stored;
  }

  /** `processCallRecording(callId, recordingPath)`. `whisper` and `chat` are what successive
      invocations of the two services do, `failing` the store writes that throw. A failed run
      marks the call failed (a failure of that write is swallowed) and rethrows the original
      error; it never attaches a transcription to the call. */
  method ProcessCallRecording(db: Database, callId: Id, recordingPath: string,
                              whisper: seq<Attempt<string, ApiError>>, chat: seq<Attempt<ChatReply, ApiError>>,
                              failing: set<StoreRequest>, now: nat)
    returns (r: Result<Id, Fault>, ghost effects: seq<Effect>)
    requires db.Valid()
    requires DefaultMaxRetries <= |whisper| && DefaultMaxRetries <= |chat|
    modifies db
    ensures db.Valid() && (old(db.Linked()) ==> db.Linked())
    ensures r.Err? <==> ServerRunFault(whisper, chat, failing).Some?
    ensures r.Err? ==> r.error == ServerRunFault(whisper, chat, failing).value
    ensures r.Ok? ==> r.value == old(db.nextId) && r.value !in old(db.transcriptions)
    ensures r.Ok? ==>
      db.transcriptions == old(db.transcriptions)[r.value := RunRecord(callId, whisper, chat, now).value]
    ensures r.Ok? ==>
      db.calls == ApplyCallUpdate(ApplyCallUpdate(old(db.calls), callId, SetStatus(TranscriptionInProgress)),
                                  callId, SetLink(Some(r.value), TranscriptionComplete))
    ensures r.Err? ==> db.calls == FailedRunCalls(old(db.calls), callId, failing)
    ensures r.Err? && r.error == StoreUnavailable(MarkComplete) ==>
      db.transcriptions == old(db.transcriptions)[old(db.nextId) := RunRecord(callId, whisper, chat, now).value]
    ensures r.Err? && r.error != StoreUnavailable(MarkComplete) ==> db.transcriptions == old(db.transcriptions)
    ensures |effects| >= 1 && effects[0] == StatusWrite(callId, TranscriptionInProgress)
    ensures r.Ok? ==> effects == [
      StatusWrite(callId, TranscriptionInProgress),
      TranscriberCalls(recordingPath, Invocations(whisper, DefaultMaxRetries)),
      AnalyserCalls(Invocations(chat, DefaultMaxRetries)),
      TranscriptionSave,
      LinkWrite(callId, r.value)]
    ensures r.Err? ==> effects[|effects| - 1] == StatusWrite(callId, TranscriptionFailed)
    ensures MarkInProgress in failing ==>
      effects == [StatusWrite(callId, TranscriptionInProgress), StatusWrite(callId, TranscriptionFailed)]
    ensures MarkInProgress !in failing ==>
      effects[1] == TranscriberCalls(recordingPath, Invocations(whisper, DefaultMaxRetries))
  {
    r, effects := RunSteps(db, callId, recordingPath, whisper, chat, failing, now);
    if r.Err? {
      effects := effects + [StatusWrite(callId, TranscriptionFailed)];
      if MarkFailed !in failing {
        var found := db.UpdateCall(callId, SetStatus(TranscriptionFailed));
      }
    }
  }

  /** Every transcription attempt throwing fails the run with the last attempt's error, and no
      analysis is requested. */
  lemma ExhaustedTranscriberFailsRun(whisper: seq<Attempt<string, ApiError>>, chat: seq<Attempt<ChatReply, ApiError>>,
                                     failing: set<StoreRequest>)
    requires DefaultMaxRetries <= |whisper| && DefaultMaxRetries <= |chat|
    requires MarkInProgress !in failing
    requires forall i :: 0 <= i < DefaultMaxRetries ==> whisper[i].Threw?
    ensures ServerRunFault(whisper, chat, failing) == Some(ServiceFailed(Some(whisper[DefaultMaxRetries - 1].error)))
    ensures Invocations(whisper, DefaultMaxRetries) == DefaultMaxRetries
  {
    RetryRethrowsLastError(whisper, DefaultMaxRetries);
  }

  /** Failures that the retries absorb do not fail the run: when each service delivers within
      its three attempts, the transcript is not empty and the store takes every write, the run
      succeeds. */
  lemma TransientFailuresAreAbsorbed(whisper: seq<Attempt<string, ApiError>>, chat: seq<Attempt<ChatReply, ApiError>>,
                                     failing: set<StoreRequest>, k1: nat, k2: nat)
    requires DefaultMaxRetries <= |whisper| && DefaultMaxRetries <= |chat|
    requires k1 < DefaultMaxRetries && k2 < DefaultMaxRetries
    requires (forall i :: 0 <= i < k1 ==> whisper[i].Threw?) && whisper[k1].Resolved? && whisper[k1].value != ""
    requires (forall i :: 0 <= i < k2 ==> chat[i].Threw?) && chat[k2].Resolved? && chat[k2].value.JsonObject?
    requires MarkInProgress !in failing && SaveTranscription !in failing && MarkComplete !in failing
    ensures ServerRunFault(whisper, chat, failing).None?
  {
    RetryReturnsFirstSuccess(whisper, DefaultMaxRetries, k1);
    RetryReturnsFirstSuccess(chat, DefaultMaxRetries, k2);
  }

  /** `cleanupFile(filePath)`: removes the file when it exists; never throws. */
  method CleanupFile(disk: Disk, path: string)
    modifies disk
    ensures disk.files == old(disk.files) - {path}
    ensures !disk.Exists(path)
  {
    if disk.Exists(path) {
      disk.Remove(path);
    }
  }

  /** The simulate-call route of this server: the shared route, then the pipeline above on the
      uploaded file (started three seconds later; its outcome is only logged). */
  method SimulateCall(db: Database, file: Option<UploadedFile>, from: Option<string>,
                      twilioNumber: Option<string>, failing: set<StoreRequest>, now: nat)
    returns (reply: Reply<Id>, trigger: Option<Trigger>)
    requires db.Valid()
    modifies db
    ensures db.Valid() && (old(db.Linked()) ==> db.Linked())
    ensures db.transcriptions == old(db.transcriptions)
    ensures file.None? ==> reply == NoAudioFile
    ensures reply.Answer? <==>
      file.Some? && CheckUpload(file.value.mimetype, file.value.size).Accepted? &&
      SaveCall !in failing && !CallSidTaken(old(db.calls), Simulation.SimulatedCallSid(now))
    ensures reply.Answer? ==>
      reply.code == 201 && reply.body == old(db.nextId) &&
      db.calls == old(db.calls)[reply.body := Simulation.SimulatedCall(file.value, from, twilioNumber, now)] &&
      trigger == Some(RunServerPipeline(reply.body, file.value.path))
    ensures file.Some? && CheckUpload(file.value.mimetype, file.value.size).Accepted? && SaveCall in failing ==>
      reply == ServerError(StoreUnavailable(SaveCall))
    ensures !reply.Answer? ==> db.calls == old(db.calls) && trigger.None?
  {
    reply := Simulation.SimulateCall(db, file, from, twilioNumber, failing, now);
    trigger := if reply.Answer? then Some(RunServerPipeline(reply.body, file.value.path)) else None;
  }
}

/** The service-module pipeline: mark the call in progress, obtain the audio (the given local
    file, or a download saved to a temporary file), transcribe it with a single service call,
    remove the temporary file, store a plain transcription and link it, then start
    categorisation without waiting for it. Also categorisation itself. */
module OpenAIService {
  import opened Wrappers
  import opened Text
  import opened Faults
  import opened CallModel
  import opened TranscriptionModel
  import opened Retry
  import opened Documents
  import opened Pipeline
  import opened Files
  import opened Twilio

  /** The fields this pipeline saves: text and the placeholder confidence only. */
  function PlainFields(callId: Id, text: string): TranscriptionFields {
    TranscriptionFields(
      callId := Some(callId), text := Some(text), confidence := Some(PlaceholderConfidence),
      tags := None, categories := None, summary := None)
  }

  /** The record saved for a non-empty transcript: no summary, categories or tags yet. */
  function PlainRecord(callId: Id, text: string, now: nat): (t: Transcription)
    requires text != ""
    ensures t.callId == callId && t.text == text && t.confidence == PlaceholderConfidence
    ensures t.summary.None? && t.categories == [] && t.tags == []
    ensures t.createdAt == now && t.updatedAt == now
  {
    NewTranscription(PlainFields(callId, text), now).value
  }

  /** The file handed to the transcription service. */
  function AudioPath(recordingRef: string, isLocalFile: bool, tmpdir: string, callId: Id): string {
    if isLocalFile then recordingRef else TempPath(tmpdir, callId)
  }

  /** The recording fetch a run makes, if any. */
  function FetchEffects(recordingRef: string, isLocalFile: bool, accountSid: Option<string>): seq<Effect> {
    if !isLocalFile && RecordingFetchUrl(recordingRef, accountSid).Some? then
      [RecordingFetch(RecordingFetchUrl(recordingRef, accountSid).value)]
    else []
  }

  /** What a successful run does, in order. */
  function SuccessEffects(callId: Id, recordingRef: string, isLocalFile: bool, accountSid: Option<string>,
                          tmpdir: string, tid: Id): seq<Effect>
  {
    [StatusWrite(callId, TranscriptionInProgress)]
    + FetchEffects(recordingRef, isLocalFile, accountSid)
    + [TranscriberCalls(AudioPath(recordingRef, isLocalFile, tmpdir, callId), 1), TranscriptionSave,
       LinkWrite(callId, tid)]
  }

  /** Whether the run writes a temporary file: the call was marked in progress, the recording
      is remote and the download succeeded. */
  predicate WritesTempFile(recordingRef: string, isLocalFile: bool, accountSid: Option<string>,
                           fetched: FetchReply, failing: set<StoreRequest>)
  {
    MarkInProgress !in failing && !isLocalFile && DownloadRecording(recordingRef, accountSid, fetched).Ok?
  }

  /** The error that makes a run fail, if any: that of the first step to fail, in the order the
      run takes them (the in-progress write, the download, transcription, saving, linking). */
  function ServiceRunFault(recordingRef: string, isLocalFile: bool, accountSid: Option<string>,
                           fetched: FetchReply, whisper: Attempt<string, ApiError>, failing: set<StoreRequest>)
    : Option<Fault>
  {
    if MarkInProgress in failing then Some(StoreUnavailable(MarkInProgress))
    else if !isLocalFile && DownloadRecording(recordingRef, accountSid, fetched).Err? then
      Some(DownloadRecording(recordingRef, accountSid, fetched).error)
    else if whisper.Threw? then Some(ServiceFailed(Some(whisper.error)))
    else if whisper.value == "" then Some(ValidationFailed({"text"}))
    else if SaveTranscription in failing then Some(StoreUnavailable(SaveTranscription))
    else if MarkComplete in failing then Some(StoreUnavailable(MarkComplete))
    else None
  }

  /** The error a failed run throws: the original one, unless marking the call failed throws
      too, in which case that error replaces it. */
  function Thrown(fault: Fault, failing: set<StoreRequest>): (e: Fault)
    ensures MarkFailed !in failing ==> e == fault
    ensures MarkFailed in failing ==> e == StoreUnavailable(MarkFailed)
  {
    if MarkFailed in failing then StoreUnavailable(MarkFailed) else fault
  }

  /** Obtaining the audio file: the local path as given, or the downloaded recording written to
      the call's temporary path. */
  method PrepareAudio(disk: Disk, callId: Id, recordingRef: string, isLocalFile: bool,
                      accountSid: Option<string>, fetched: FetchReply, tmpdir: string)
    returns (r: Result<string, Fault>, ghost effects: seq<Effect>)
    modifies disk
    ensures effects == FetchEffects(recordingRef, isLocalFile, accountSid)
    ensures isLocalFile ==> r == Ok(recordingRef) && disk.files == old(disk.files)
    ensures !isLocalFile && DownloadRecording(recordingRef, accountSid, fetched).Err? ==>
      r == Err(DownloadRecording(recordingRef, accountSid, fetched).error) && disk.files == old(disk.files)
    ensures !isLocalFile && DownloadRecording(recordingRef, accountSid, fetched).Ok? ==>
      r == Ok(TempPath(tmpdir, callId)) &&
      disk.files == old(disk.files)[TempPath(tmpdir, callId) := DownloadRecording(recordingRef, accountSid, fetched).value]
  {
    if isLocalFile {
      return Ok(recordingRef), [];
    }
    var url := RecordingFetchUrl(recordingRef, accountSid);
    effects := if url.Some? then [RecordingFetch(url.value)] else [];
    var audio := DownloadRecording(recordingRef, accountSid, fetched);
    if audio.Err? {
      return Err(audio.error), effects;
    }
    var path := TempPath(tmpdir, callId);
    disk.Write(path, audio.value);
    r := Ok(path);
  }

  /** The transcript a run obtains, once the call is marked in progress: the download's error,
      the transcription call's error, or the text. */
  function TranscriptOutcome(recordingRef: string, isLocalFile: bool, accountSid: Option<string>,
                             fetched: FetchReply, whisper: Attempt<string, ApiError>): Result<string, Fault>
  {
    if !isLocalFile && DownloadRecording(recordingRef, accountSid, fetched).Err? then
      Err(DownloadRecording(recordingRef, accountSid, fetched).error)
    else if whisper.Threw? then Err(ServiceFailed(Some(whisper.error)))
    else Ok(whisper.value)
  }

  /** Past the in-progress write, a run fails exactly as its transcript does, and otherwise
      as saving and linking that transcript does. */
  lemma ServiceRunFaultSplits(callId: Id, recordingRef: string, isLocalFile: bool, accountSid: Option<string>,
                              fetched: FetchReply, whisper: Attempt<string, ApiError>, failing: set<StoreRequest>,
                              now: nat)
    requires MarkInProgress !in failing
    ensures TranscriptOutcome(recordingRef, isLocalFile, accountSid, fetched, whisper).Err? ==>
      ServiceRunFault(recordingRef, isLocalFile, accountSid, fetched, whisper, failing) ==
      Some(TranscriptOutcome(recordingRef, isLocalFile, accountSid, fetched, whisper).error)
    ensures TranscriptOutcome(recordingRef, isLocalFile, accountSid, fetched, whisper).Ok? ==>
      ServiceRunFault(recordingRef, isLocalFile, accountSid, fetched, whisper, failing) ==
      SaveFault(PlainFields(callId, whisper.value), failing, now)
  {
    if TranscriptOutcome(recordingRef, isLocalFile, accountSid, fetched, whisper).Ok? && whisper.value == "" {
      assert MissingTranscriptionPaths(PlainFields(callId, whisper.value)) == {"text"};
    }
  }

  /** Obtaining the audio, transcribing it, and removing a temporary file after a successful
      transcription. */
  method Transcribe(disk: Disk, callId: Id, recordingRef: string, isLocalFile: bool,
                    accountSid: Option<string>, fetched: FetchReply, tmpdir: string,
                    whisper: Attempt<string, ApiError>, failing: set<StoreRequest>)
    returns (r: Result<string, Fault>, ghost effects: seq<Effect>)
    requires MarkInProgress !in failing
    modifies disk
    ensures r == TranscriptOutcome(recordingRef, isLocalFile, accountSid, fetched, whisper)
    ensures r.Ok? ==>
      effects == FetchEffects(recordingRef, isLocalFile, accountSid) +
                 [TranscriberCalls(AudioPath(recordingRef, isLocalFile, tmpdir, callId), 1)]
    ensures !WritesTempFile(recordingRef, isLocalFile, accountSid, fetched, failing) ==> disk.files == old(disk.files)
    ensures WritesTempFile(recordingRef, isLocalFile, accountSid, fetched, failing) && whisper.Threw? ==>
      disk.files == old(disk.files)[TempPath(tmpdir, callId) := DownloadRecording(recordingRef, accountSid, fetched).value]
    ensures WritesTempFile(recordingRef, isLocalFile, accountSid, fetched, failing) && whisper.Resolved? ==>
      disk.files == old(disk.files) - {TempPath(tmpdir, callId)}
  {
    var audio, audioEffects := PrepareAudio(disk, callId, recordingRef, isLocalFile, accountSid, fetched, tmpdir);
    effects := audioEffects;
    if audio.Err? {
      return Err(audio.error), effects;
    }
    effects := effects + [TranscriberCalls(audio.value, 1)];
    if whisper.Threw? {
      return Err(ServiceFailed(Some(whisper.error))), effects;
    }
    if !isLocalFile {
      disk.Remove(audio.value);
    }
    r := Ok(whisper.value);
  }

  /** The steps after the in-progress write: transcribe, then save and link a plain record. */
  method TranscribeAndStore(db: Database, disk: Disk, callId: Id, recordingRef: string, isLocalFile: bool,
                            accountSid: Option<string>, fetched: FetchReply, tmpdir: string,
                            whisper: Attempt<string, ApiError>, failing: set<StoreRequest>, now: nat)
    returns (r: Result<Id, Fault>, ghost effects: seq<Effect>)
    requires db.Valid() && MarkInProgress !in failing
    modifies db, disk
    ensures db.Valid() && (old(db.Linked()) ==> db.Linked())
    ensures r.Err? <==> ServiceRunFault(recordingRef, isLocalFile, accountSid, fetched, whisper, failing).Some?
    ensures r.Err? ==> r.error == ServiceRunFault(recordingRef, isLocalFile, accountSid, fetched, whisper, failing).value
    ensures r.Ok? ==> r.value == old(db.nextId) && whisper.Resolved? && whisper.value != ""
    ensures r.Ok? ==> db.transcriptions == old(db.transcriptions)[r.value := PlainRecord(callId, whisper.value, now)]
    ensures r.Ok? ==> db.calls == ApplyCallUpdate(old(db.calls), callId, SetLink(Some(r.value), TranscriptionComplete))
    ensures r.Err? ==> db.calls == old(db.calls)
    ensures r.Err? && r.error == StoreUnavailable(MarkComplete) ==>
      whisper.Resolved? && whisper.value != "" &&
      db.transcriptions == old(db.transcriptions)[old(db.nextId) := PlainRecord(callId, whisper.value, now)]
    ensures r.Err? && r.error != StoreUnavailable(MarkComplete) ==> db.transcriptions == old(db.transcriptions)
    ensures !WritesTempFile(recordingRef, isLocalFile, accountSid, fetched, failing) ==> disk.files == old(disk.files)
    ensures WritesTempFile(recordingRef, isLocalFile, accountSid, fetched, failing) && whisper.Threw? ==>
      disk.files == old(disk.files)[TempPath(tmpdir, callId) := DownloadRecording(recordingRef, accountSid, fetched).value]
    ensures WritesTempFile(recordingRef, isLocalFile, accountSid, fetched, failing) && whisper.Resolved? ==>
      disk.files == old(disk.files) - {TempPath(tmpdir, callId)}
    ensures r.Ok? ==>
      effects == FetchEffects(recordingRef, isLocalFile, accountSid)
                 + [TranscriberCalls(AudioPath(recordingRef, isLocalFile, tmpdir, callId), 1), TranscriptionSave,
                    LinkWrite(callId, r.value)]
  {
    var transcript, transcriptEffects := Transcribe(disk, callId, recordingRef, isLocalFile, accountSid, fetched, tmpdir, whisper, failing);
    ServiceRunFaultSplits(callId, recordingRef, isLocalFile, accountSid, fetched, whisper, failing, now);
    effects := transcriptEffects;
    if transcript.Err? {
      return Err(transcript.error), effects;
    }
    var closing, closingEffects := SaveAndLink(db, callId, PlainFields(callId, transcript.value), failing, now);
    effects := effects + closingEffects;
    r := closing;
  }

  /** The body of the pipeline's `try` block. */
  method RunSteps(db: Database, disk: Disk, callId: Id, recordingRef: string, isLocalFile: bool,
                  accountSid: Option<string>, fetched: FetchReply, tmpdir: string,
                  whisper: Attempt<string, ApiError>, failing: set<StoreRequest>, now: nat)
    returns (r: Result<Id, Fault>, ghost effects: seq<Effect>)
    requires db.Valid()
    modifies db, disk
    ensures db.Valid() && (old(db.Linked()) ==> db.Linked())
    ensures r.Err? <==> ServiceRunFault(recordingRef, isLocalFile, accountSid, fetched, whisper, failing).Some?
    ensures r.Err? ==> r.error == ServiceRunFault(recordingRef, isLocalFile, accountSid, fetched, whisper, failing).value
    ensures r.Ok? ==> r.value == old(db.nextId) && whisper.Resolved? && whisper.value != ""
    ensures r.Ok? ==> db.transcriptions == old(db.transcriptions)[r.value := PlainRecord(callId, whisper.value, now)]
    ensures r.Ok? ==>
      db.calls == ApplyCallUpdate(StartedCalls(old(db.calls), callId, failing), callId,
                                  SetLink(Some(r.value), TranscriptionComplete))
    ensures r.Err? ==> db.calls == StartedCalls(old(db.calls), callId, failing)
    ensures r.Err? && r.error == StoreUnavailable(MarkComplete) ==>
      whisper.Resolved? && whisper.value != "" &&
      db.transcriptions == old(db.transcriptions)[old(db.nextId) := PlainRecord(callId, whisper.value, now)]
    ensures r.Err? && r.error != StoreUnavailable(MarkComplete) ==> db.transcriptions == old(db.transcriptions)
    ensures !WritesTempFile(recordingRef, isLocalFile, accountSid, fetched, failing) ==> disk.files == old(disk.files)
    ensures WritesTempFile(recordingRef, isLocalFile, accountSid, fetched, failing) && whisper.Threw? ==>
      disk.files == old(disk.files)[TempPath(tmpdir, callId) := DownloadRecording(recordingRef, accountSid, fetched).value]
    ensures WritesTempFile(recordingRef, isLocalFile, accountSid, fetched, failing) && whisper.Resolved? ==>
      disk.files == old(disk.files) - {TempPath(tmpdir, callId)}
    ensures |effects| >= 1 && effects[0] == StatusWrite(callId, TranscriptionInProgress)
    ensures r.Ok? ==> effects == SuccessEffects(callId, recordingRef, isLocalFile, accountSid, tmpdir, r.value)
  {
    effects := [StatusWrite(callId, TranscriptionInProgress)];
    if MarkInProgress in failing {
      r := Err(StoreUnavailable(MarkInProgress));
      return;
    }
    var found := db.UpdateCall(callId, SetStatus(TranscriptionInProgress));
    var stored, storedEffects := TranscribeAndStore(db, disk, callId, recordingRef, isLocalFile, accountSid, fetched,
                                                    tmpdir, whisper, failing, now);
    effects := effects + storedEffects;
    r := stored;
  }

  /** `processCallRecording(callId, recordingPath, isLocalFile)`. `fetched` is what the
      recording fetch returns, `whisper` what the single transcription call does, `failing` the
      store writes that throw. On success the categorisation of the new transcription is
      started and not awaited (`categorise`). A failed run marks the call failed and rethrows;
      it never attaches a transcription to the call. A temporary file is removed only after a
      successful transcription. */
  method ProcessCallRecording(db: Database, disk: Disk, callId: Id, recordingRef: string, isLocalFile: bool,
                              accountSid: Option<string>, fetched: FetchReply, tmpdir: string,
                              whisper: Attempt<string, ApiError>, failing: set<StoreRequest>, now: nat)
    returns (r: Result<Id, Fault>, categorise: Option<Id>, ghost effects: seq<Effect>)
    requires db.Valid()
    modifies db, disk
    ensures db.Valid() && (old(db.Linked()) ==> db.Linked())
    ensures r.Err? <==> ServiceRunFault(recordingRef, isLocalFile, accountSid, fetched, whisper, failing).Some?
    ensures r.Err? ==>
      r.error == Thrown(ServiceRunFault(recordingRef, isLocalFile, accountSid, fetched, whisper, failing).value, failing)
    ensures r.Ok? <==> categorise.Some?
    ensures r.Ok? ==> r.value == old(db.nextId) && r.value !in old(db.transcriptions) && categorise == Some(r.value)
    ensures r.Ok? ==>
      whisper.Resolved? && db.transcriptions == old(db.transcriptions)[r.value := PlainRecord(callId, whisper.value, now)]
    ensures r.Ok? ==>
      db.calls == ApplyCallUpdate(ApplyCallUpdate(old(db.calls), callId, SetStatus(TranscriptionInProgress)),
                                  callId, SetLink(Some(r.value), TranscriptionComplete))
    ensures r.Err? ==> db.calls == FailedRunCalls(old(db.calls), callId, failing)
    ensures r.Err? && ServiceRunFault(recordingRef, isLocalFile, accountSid, fetched, whisper, failing) ==
                      Some(StoreUnavailable(MarkComplete)) ==>
      whisper.Resolved? &&
      db.transcriptions == old(db.transcriptions)[old(db.nextId) := PlainRecord(callId, whisper.value, now)]
    ensures r.Err? && ServiceRunFault(recordingRef, isLocalFile, accountSid, fetched, whisper, failing) !=
                      Some(StoreUnavailable(MarkComplete)) ==>
      db.transcriptions == old(db.transcriptions)
    ensures !WritesTempFile(recordingRef, isLocalFile, accountSid, fetched, failing) ==> disk.files == old(disk.files)
    ensures WritesTempFile(recordingRef, isLocalFile, accountSid, fetched, failing) && whisper.Threw? ==>
      disk.files == old(disk.files)[TempPath(tmpdir, callId) := DownloadRecording(recordingRef, accountSid, fetched).value]
    ensures WritesTempFile(recordingRef, isLocalFile, accountSid, fetched, failing) && whisper.Resolved? ==>
      disk.files == old(disk.files) - {TempPath(tmpdir, callId)}
    ensures |effects| >= 1 && effects[0] == StatusWrite(callId, TranscriptionInProgress)
    ensures r.Ok? ==> effects == SuccessEffects(callId, recordingRef, isLocalFile, accountSid, tmpdir, r.value)
    ensures r.Err? ==> effects[|effects| - 1] == StatusWrite(callId, TranscriptionFailed)
  {
    r, effects := RunSteps(db, disk, callId, recordingRef, isLocalFile, accountSid, fetched, tmpdir, whisper, failing, now);
    categorise := None;
    if r.Ok? {
      categorise := Some(r.value);
    } else {
      effects := effects + [StatusWrite(callId, TranscriptionFailed)];
      if MarkFailed in failing {
        r := Err(StoreUnavailable(MarkFailed));
      } else {
        var found := db.UpdateCall(callId, SetStatus(TranscriptionFailed));
      }
    }
  }

  /** The categorisation step's error, if any, in the order the step meets them: the read
      throwing, a missing transcription or an empty text, the chat completion throwing, a reply
      that is not a JSON object, and the write of the analysis throwing. */
  function CategorisationFault(transcriptions: map<Id, Transcription>, transcriptionId: Id,
                               chat: Attempt<ChatReply, ApiError>, failing: set<StoreRequest>): Option<Fault>
  {
    if ReadRecord in failing then Some(StoreUnavailable(ReadRecord))
    else if transcriptionId !in transcriptions || transcriptions[transcriptionId].text == "" then
      Some(TranscriptionMissingOrEmpty)
    else if chat.Threw? then Some(ServiceFailed(Some(chat.error)))
    else if chat.value.NotJson? then Some(MalformedAnalysis)
    else if SaveAnalysis in failing then Some(StoreUnavailable(SaveAnalysis))
    else None
  }

  /** A transcription with an analysis applied: missing categories and tags become empty lists,
      a missing summary the empty text; nothing else changes. */
  function Categorised(t: Transcription, a: Analysis): (u: Transcription)
    ensures u.categories == (if a.categories.Some? then a.categories.value else [])
    ensures u.tags == (if a.tags.Some? then a.tags.value else [])
    ensures u.summary == Some(if a.summary.Some? then a.summary.value else "")
    ensures u.(categories := t.categories, tags := t.tags, summary := t.summary) == t
  {
    t.(categories := if a.categories.Some? then a.categories.value else [],
       tags := if a.tags.Some? then a.tags.value else [],
       summary := Some(if a.summary.Some? then a.summary.value else ""))
  }

  /** `processCategorization(transcriptionId)`, where `chat` is what the chat completion does.
      It never touches a call; on failure it changes nothing and rethrows. */
  method ProcessCategorization(db: Database, transcriptionId: Id, chat: Attempt<ChatReply, ApiError>,
                               failing: set<StoreRequest>)
    returns (r: Result<Analysis, Fault>)
    requires db.Valid()
    modifies db
    ensures db.Valid() && (old(db.Linked()) ==> db.Linked())
    ensures db.calls == old(db.calls)
    ensures r.Err? <==> CategorisationFault(old(db.transcriptions), transcriptionId, chat, failing).Some?
    ensures r.Err? ==>
      r.error == CategorisationFault(old(db.transcriptions), transcriptionId, chat, failing).value &&
      db.transcriptions == old(db.transcriptions)
    ensures r.Ok? ==> chat == Resolved(JsonObject(r.value))
    ensures r.Ok? ==>
      db.transcriptions == old(db.transcriptions)[transcriptionId := Categorised(old(db.transcriptions)[transcriptionId], r.value)]
  {
    if ReadRecord in failing {
      return Err(StoreUnavailable(ReadRecord));
    }
    var stored := FindById(db.transcriptions, transcriptionId);
    if stored.Err? || stored.value.text == "" {
      return Err(TranscriptionMissingOrEmpty);
    }
    if chat.Threw? {
      return Err(ServiceFailed(Some(chat.error)));
    }
    if chat.value.NotJson? {
      return Err(MalformedAnalysis);
    }
    var analysis := chat.value.analysis;
    if SaveAnalysis in failing {
      return Err(StoreUnavailable(SaveAnalysis));
    }
    db.ReplaceTranscription(transcriptionId, Categorised(stored.value, analysis));
    r := Ok(analysis);
  }
}

/** What the two transcription pipelines share: the analysis a chat completion yields, the
    observable steps of a run, the background work a route starts, and the temporary path of a
    downloaded recording. */
module Pipeline {
  import opened Wrappers
  import opened Text
  import opened CallModel
  import opened Faults
  import opened TranscriptionModel
  import opened Documents

  /** The fields of the JSON object the chat completion answers with; a key the object lacks
      is None. */
  datatype Analysis = Analysis(
    summary: Option<string>, categories: Option<seq<string>>, tags: Option<seq<string>>)

  /** The message content of a chat completion, after `JSON.parse`. */
  datatype ChatReply = JsonObject(analysis: Analysis) | NotJson

  /** One observable step of a pipeline run, in the order the run takes them. A status or link
      write is recorded when it is attempted, whether or not the store accepts it. */
  datatype Effect =
    | StatusWrite(callId: Id, status: Status)
    | LinkWrite(callId: Id, transcriptionId: Id)
    | RecordingFetch(url: string)
    | TranscriberCalls(file: string, count: nat)
    | AnalyserCalls(count: nat)
    | TranscriptionSave

  /** Background work a route starts after answering. */
  datatype Trigger =
    | RunServerPipeline(callId: Id, recordingPath: string)
    | RunServicePipeline(callId: Id, recordingRef: string, isLocalFile: bool)

  /** `path.join(os.tmpdir(), `recording-${callId}.mp3`)`, with the id rendered in hex. */
  function TempPath(tmpdir: string, callId: Id): (p: string)
    ensures StartsWith(p, tmpdir + "/recording-")
    ensures |p| >= |tmpdir + "/recording-"| + 5 && p[|p| - 4..] == ".mp3"
    ensures p[|tmpdir + "/recording-"|..|p| - 4] == Numeral(callId, 16)
  {
    tmpdir + "/recording-" + Numeral(callId, 16) + ".mp3"
  }

  /** Two calls never share a temporary recording file. */
  lemma TempPathsDistinct(tmpdir: string, a: Id, b: Id)
    requires TempPath(tmpdir, a) == TempPath(tmpdir, b)
    ensures a == b
  {
    FramedNumeralInjective(tmpdir + "/recording-", a, b, 16, ".mp3");
  }

  /** The calls after the in-progress write, which a failing store leaves undone. */
  function StartedCalls(calls: map<Id, Call>, callId: Id, failing: set<StoreRequest>): map<Id, Call> {
    if MarkInProgress in failing then calls else ApplyCallUpdate(calls, callId, SetStatus(TranscriptionInProgress))
  }

  /** The calls after a failed run of either pipeline: the in-progress write and then the
      failed write, each one only if the store takes it. The call keeps whatever
      transcriptionId it had. */
  function FailedRunCalls(calls: map<Id, Call>, callId: Id, failing: set<StoreRequest>): (after: map<Id, Call>)
    ensures after.Keys == calls.Keys
    ensures forall k :: k in calls && k != callId ==> after[k] == calls[k]
    ensures callId in calls ==> after[callId].transcriptionId == calls[callId].transcriptionId
    ensures callId in calls && MarkFailed !in failing ==> after[callId].status == TranscriptionFailed
    ensures callId in calls && MarkFailed in failing ==>
      after[callId].status == (if MarkInProgress in failing then calls[callId].status else TranscriptionInProgress)
  {
    var started := StartedCalls(calls, callId, failing);
    if MarkFailed in failing then started else ApplyCallUpdate(started, callId, SetStatus(TranscriptionFailed))
  }

  /** The error of the closing steps shared by both pipelines, if any: validation of the
      record, then the save, then the link. */
  function SaveFault(fields: TranscriptionFields, failing: set<StoreRequest>, now: nat): Option<Fault> {
    if NewTranscription(fields, now).Err? then Some(NewTranscription(fields, now).error)
    else if SaveTranscription in failing then Some(StoreUnavailable(SaveTranscription))
    else if MarkComplete in failing then Some(StoreUnavailable(MarkComplete))
    else None
  }

  /** The closing steps shared by both pipelines: save the new transcription, then give the
      call its id and status `transcription_complete`. A record that fails validation or a
      save that throws stores nothing; a link that throws leaves the saved record unreferenced. */
  method SaveAndLink(db: Database, callId: Id, fields: TranscriptionFields, failing: set<StoreRequest>, now: nat)
    returns (r: Result<Id, Fault>, ghost effects: seq<Effect>)
    requires db.Valid() && fields.callId == Some(callId)
    modifies db
    ensures db.Valid() && (old(db.Linked()) ==> db.Linked())
    ensures r.Err? <==> SaveFault(fields, failing, now).Some?
    ensures r.Err? ==> r.error == SaveFault(fields, failing, now).value
    ensures r.Ok? ==> r.value == old(db.nextId)
    ensures r.Ok? ==> db.calls == ApplyCallUpdate(old(db.calls), callId, SetLink(Some(r.value), TranscriptionComplete))
    ensures r.Err? ==> db.calls == old(db.calls)
    ensures NewTranscription(fields, now).Ok? && SaveTranscription !in failing ==>
      db.transcriptions == old(db.transcriptions)[old(db.nextId) := NewTranscription(fields, now).value]
    ensures NewTranscription(fields, now).Err? || SaveTranscription in failing ==>
      db.transcriptions == old(db.transcriptions)
    ensures effects == [TranscriptionSave] + LinkEffects(callId, fields, failing, old(db.nextId), now)
    ensures r.Ok? ==> effects == [TranscriptionSave, LinkWrite(callId, r.value)]
  {
    var built := NewTranscription(fields, now);
    effects := [TranscriptionSave];
    if built.Err? {
      return Err(built.error), effects;
    }
    if SaveTranscription in failing {
      return Err(StoreUnavailable(SaveTranscription)), effects;
    }
    var tid := db.InsertTranscription(built.value);
    effects := effects + [LinkWrite(callId, tid)];
    if MarkComplete in failing {
      return Err(StoreUnavailable(MarkComplete)), effects;
    }
    var found := db.UpdateCall(callId, SetLink(Some(tid), TranscriptionComplete));
    r := Ok(tid);
  }

  /** The link write a save is followed by, when the record was stored under `tid`. */
  function LinkEffects(callId: Id, fields: TranscriptionFields, failing: set<StoreRequest>, tid: Id, now: nat): seq<Effect> {
    if NewTranscription(fields, now).Ok? && SaveTranscription !in failing then [LinkWrite(callId, tid)] else []
  }
}

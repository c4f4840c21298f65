/** The call controller: create, read, list and delete call records. */
module CallController {
  import opened Wrappers
  import opened Faults
  import opened CallModel
  import opened TranscriptionModel
  import opened Documents
  import opened Pipeline
  import opened Replies
  import opened Views

  /** The document `createCall` builds from the request body: the posted callSid, numbers,
      recording URL and duration, with the status forced to `pending_transcription`. */
  function CreatedCall(body: CallFields, now: nat): (r: Result<Call, Fault>)
    ensures r.Err? <==> !Present(body.callSid) || !Present(body.from) || !Present(body.to)
    ensures r.Err? ==> r.error == ValidationFailed(MissingCallPaths(body))
    ensures r.Ok? ==> r.value.status == PendingTranscription && r.value.transcriptionId.None?
    ensures r.Ok? ==> r.value.callSid == body.callSid.value && r.value.from == body.from.value
    ensures r.Ok? ==> r.value.to == body.to.value && r.value.recordingUrl == body.recordingUrl
    ensures r.Ok? ==> r.value.duration == (if body.duration.Some? then body.duration.value else 0.0)
  {
    NewCall(body.(status := Some(PendingTranscription)), now)
  }

  /** `createCall`: validate and store the call; when it carries a non-empty recording URL,
      start the service pipeline on that URL without waiting for it (`trigger`). A validation
      or duplicate-callSid failure is answered with 500 and stores nothing. */
  method CreateCall(db: Database, body: CallFields, now: nat)
    returns (reply: Reply<(Id, Call)>, trigger: Option<Trigger>)
    requires db.Valid()
    modifies db
    ensures db.Valid() && (old(db.Linked()) ==> db.Linked())
    ensures db.transcriptions == old(db.transcriptions)
    ensures reply.Answer? || reply.ServerError?
    ensures reply.Answer? <==> CreatedCall(body, now).Ok? && !CallSidTaken(old(db.calls), body.callSid.value)
    ensures CreatedCall(body, now).Err? ==> reply == ServerError(CreatedCall(body, now).error)
    ensures CreatedCall(body, now).Ok? && CallSidTaken(old(db.calls), body.callSid.value) ==>
      reply == ServerError(DuplicateCallSid(body.callSid.value))
    ensures reply.Answer? ==>
      reply.code == 201 && reply.body == (old(db.nextId), CreatedCall(body, now).value) &&
      db.calls == old(db.calls)[old(db.nextId) := CreatedCall(body, now).value]
    ensures !reply.Answer? ==> db.calls == old(db.calls)
    ensures trigger.Some? <==> reply.Answer? && Present(body.recordingUrl)
    ensures trigger.Some? ==> trigger.value == RunServicePipeline(old(db.nextId), body.recordingUrl.value, false)
  {
    trigger := None;
    var built := CreatedCall(body, now);
    if built.Err? {
      return ServerError(built.error), trigger;
    }
    var inserted := db.InsertCall(built.value);
    if inserted.Err? {
      return ServerError(inserted.error), trigger;
    }
    if Present(body.recordingUrl) {
      trigger := Some(RunServicePipeline(inserted.value, body.recordingUrl.value, false));
    }
    reply := Answer(201, (inserted.value, built.value));
  }

  /** `getCallById`: 404 for an unknown id, otherwise the stored call. */
  function GetCallById(calls: map<Id, Call>, id: Id): (reply: Reply<Call>)
    ensures reply.NotFound? <==> id !in calls
    ensures reply.Answer? || reply.NotFound?
    ensures reply.Answer? ==> reply.code == 200 && reply.body == calls[id]
  {
    match FindById(calls, id)
    case Err(_) => NotFound
    case Ok(c) => Answer(200, c)
  }

  /** `deleteCall`: 404 for an unknown id; otherwise only the call record goes, and its
      transcriptions stay in their collection. */
  method DeleteCall(db: Database, id: Id) returns (reply: Reply<()>)
    requires db.Valid()
    modifies db
    ensures db.Valid() && (old(db.Linked()) ==> db.Linked())
    ensures reply.Answer? || reply.NotFound?
    ensures reply.NotFound? <==> id !in old(db.calls)
    ensures reply.Answer? ==> reply.code == 200
    ensures db.calls == old(db.calls) - {id}
    ensures db.transcriptions == old(db.transcriptions)
  {
    var removed := db.RemoveCall(id);
    if removed.None? {
      return NotFound;
    }
    reply := Answer(200, ());
  }

  /** Once a call is deleted its id is unknown to both read routes. */
  lemma DeletedCallIsGone(calls: map<Id, Call>, transcriptions: map<Id, Transcription>, id: Id)
    ensures GetCallById(calls - {id}, id) == NotFound
    ensures CallStatus(calls - {id}, transcriptions, id) == Err(404)
  {
  }
}

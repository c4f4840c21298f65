/** The Call record: its fields, the closed status enumeration, defaults and validation. */
module CallModel {
  import opened Wrappers
  import opened Faults

  /** Document identifiers (ObjectIds in the source). */
  type Id = nat

  /** The five values the status path admits. */
  datatype Status =
    | PendingTranscription
    | TranscriptionInProgress
    | TranscriptionComplete
    | TranscriptionFailed
    | TranscriptionDeleted

  /** The stored text of a status. */
  function StatusName(s: Status): string {
    match s
    case PendingTranscription => "pending_transcription"
    case TranscriptionInProgress => "transcription_in_progress"
    case TranscriptionComplete => "transcription_complete"
    case TranscriptionFailed => "transcription_failed"
    case TranscriptionDeleted => "transcription_deleted"
  }

  /** The enum validator: a text is a status exactly when it names one. */
  function ParseStatus(name: string): (r: Option<Status>)
    ensures r.Some? ==> StatusName(r.value) == name
    ensures r.None? ==> forall s: Status :: StatusName(s) != name
  {
    if name == "pending_transcription" then Some(PendingTranscription)
    else if name == "transcription_in_progress" then Some(TranscriptionInProgress)
    else if name == "transcription_complete" then Some(TranscriptionComplete)
    else if name == "transcription_failed" then Some(TranscriptionFailed)
    else if name == "transcription_deleted" then Some(TranscriptionDeleted)
    else None
  }

  /** Every status survives being stored as text and read back. */
  lemma StatusRoundTrip(s: Status)
    ensures ParseStatus(StatusName(s)) == Some(s)
  {
  }

  /** A stored call document. */
  datatype Call = Call(
    callSid: string,
    from: string,
    to: string,
    duration: real,
    recordingUrl: Option<string>,
    transcriptionId: Option<Id>,
    status: Status,
    metadata: map<string, string>,
    createdAt: nat,
    updatedAt: nat)

  /** The fields a handler passes to `new Call({...})`; None is a field left undefined. */
  datatype CallFields = CallFields(
    callSid: Option<string>,
    from: Option<string>,
    to: Option<string>,
    duration: Option<real>,
    recordingUrl: Option<string>,
    status: Option<Status>)

  /** A required String path is satisfied by a non-empty string only. */
  predicate Present(s: Option<string>) {
    s.Some? && s.value != ""
  }

  /** The required paths of a call that the fields leave missing or empty. */
  function MissingCallPaths(f: CallFields): set<string> {
    (if Present(f.callSid) then {} else {"callSid"})
    + (if Present(f.from) then {} else {"from"})
    + (if Present(f.to) then {} else {"to"})
  }

  /** What validation guarantees of every stored call. */
  predicate WellFormedCall(c: Call) {
    c.callSid != "" && c.from != "" && c.to != ""
  }

  /** Building and validating a call document at time `now`. */
  function NewCall(f: CallFields, now: nat): (r: Result<Call, Fault>)
    ensures r.Err? <==> !Present(f.callSid) || !Present(f.from) || !Present(f.to)
    ensures r.Err? ==> r.error == ValidationFailed(MissingCallPaths(f)) && r.error.paths != {}
    ensures r.Ok? ==> WellFormedCall(r.value)
    ensures r.Ok? ==> r.value.callSid == f.callSid.value && r.value.from == f.from.value && r.value.to == f.to.value
    ensures r.Ok? ==> r.value.duration == (if f.duration.Some? then f.duration.value else 0.0)
    ensures r.Ok? ==> r.value.status == (if f.status.Some? then f.status.value else PendingTranscription)
    ensures r.Ok? ==> r.value.recordingUrl == f.recordingUrl && r.value.transcriptionId.None?
    ensures r.Ok? ==> r.value.metadata == map[] && r.value.createdAt == now && r.value.updatedAt == now
  {
    if MissingCallPaths(f) != {} then
      Err(ValidationFailed(MissingCallPaths(f)))
    else
      Ok(Call(
        callSid := f.callSid.value,
        from := f.from.value,
        to := f.to.value,
        duration := if f.duration.Some? then f.duration.value else 0.0,
        recordingUrl := f.recordingUrl,
        transcriptionId := None,
        status := if f.status.Some? then f.status.value else PendingTranscription,
        metadata := map[],
        createdAt := now,
        updatedAt := now))
  }

  /** The unique index on callSid: no two stored calls share one. */
  ghost predicate UniqueCallSids(calls: map<Id, Call>) {
    forall a, b :: a in calls && b in calls && a != b ==> calls[a].callSid != calls[b].callSid
  }

  /** Whether some stored call already carries `sid`. */
  predicate CallSidTaken(calls: map<Id, Call>, sid: string) {
    exists k :: k in calls && calls[k].callSid == sid
  }

  /** Adding a call whose callSid is not taken keeps the index unique. */
  lemma {:induction false} InsertKeepsCallSidsUnique(calls: map<Id, Call>, id: Id, c: Call)
    requires UniqueCallSids(calls)
    requires id !in calls && !CallSidTaken(calls, c.callSid)
    ensures UniqueCallSids(calls[id := c])
  {
    var after := calls[id := c];
    forall a, b | a in after && b in after && a != b
      ensures after[a].callSid != after[b].callSid
    {
      if a == id {
        assert after[b] == calls[b];
      } else if b == id {
        assert after[a] == calls[a];
      }
    }
  }
}

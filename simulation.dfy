/** The simulate-call route shared by the two servers: it turns an accepted audio upload into a
    pending call record. What happens after the record is stored differs per server. */
module Simulation {
  import opened Wrappers
  import opened Text
  import opened Faults
  import opened CallModel
  import opened Documents
  import opened Uploads
  import opened Replies

  /** The number the simulated calls use when none is configured or posted. */
  const DefaultPhoneNumber: string := "+15551234567"

  /** `value || fallback` for an optional text: an undefined or empty value falls back. */
  function OrDefault(value: Option<string>, fallback: string): (r: string)
    ensures Present(value) ==> r == value.value
    ensures !Present(value) ==> r == fallback
  {
    if Present(value) then value.value else fallback
  }

  /** `test-${Date.now()}` */
  function SimulatedCallSid(now: nat): (sid: string)
    ensures StartsWith(sid, "test-") && |sid| > 5
  {
    "test-" + Numeral(now, 10)
  }

  /** Simulated calls started at different milliseconds get different callSids; two started in
      the same millisecond collide on the unique index. */
  lemma SimulatedCallSidsDistinct(a: nat, b: nat)
    requires SimulatedCallSid(a) == SimulatedCallSid(b)
    ensures a == b
  {
    FramedNumeralInjective("test-", a, b, 10, "");
    assert "test-" + Numeral(a, 10) + "" == SimulatedCallSid(a);
    assert "test-" + Numeral(b, 10) + "" == SimulatedCallSid(b);
  }

  /** The call a simulate-call route stores for an accepted upload: the posted `from` or the
      default, the configured number or the default, the stored file's path as the recording,
      status `pending_transcription` and the schema defaults for the rest. */
  function SimulatedCall(file: UploadedFile, from: Option<string>, twilioNumber: Option<string>, now: nat)
    : (c: Call)
    ensures WellFormedCall(c)
    ensures c.callSid == SimulatedCallSid(now)
    ensures c.from == OrDefault(from, DefaultPhoneNumber) && c.to == OrDefault(twilioNumber, DefaultPhoneNumber)
    ensures c.recordingUrl == Some(file.path) && c.status == PendingTranscription
    ensures c.transcriptionId.None? && c.duration == 0.0 && c.createdAt == now
  {
    var fields := CallFields(
      callSid := Some(SimulatedCallSid(now)),
      from := Some(OrDefault(from, DefaultPhoneNumber)),
      to := Some(OrDefault(twilioNumber, DefaultPhoneNumber)),
      duration := None,
      recordingUrl := Some(file.path),
      status := Some(PendingTranscription));
    NewCall(fields, now).value
  }

  /** The route up to storing the call: 400 without a file part, the middleware's refusal of a
      rejected file, 500 when the save throws (`SaveCall` failing) or the unique index refuses
      the record (a callSid taken in the same millisecond), otherwise 201 with the new call's id.
      No transcription is touched. */
  method SimulateCall(db: Database, file: Option<UploadedFile>, from: Option<string>,
                      twilioNumber: Option<string>, failing: set<StoreRequest>, now: nat)
    returns (reply: Reply<Id>)
    requires db.Valid()
    modifies db
    ensures db.Valid()
    ensures db.transcriptions == old(db.transcriptions)
    ensures old(db.Linked()) ==> db.Linked()
    ensures file.None? ==> reply == NoAudioFile && db.calls == old(db.calls)
    ensures file.Some? && !CheckUpload(file.value.mimetype, file.value.size).Accepted? ==>
      reply == Refused(CheckUpload(file.value.mimetype, file.value.size)) && db.calls == old(db.calls)
    ensures reply.Answer? <==>
      file.Some? && CheckUpload(file.value.mimetype, file.value.size).Accepted? &&
      SaveCall !in failing && !CallSidTaken(old(db.calls), SimulatedCallSid(now))
    ensures reply.ServerError? ==>
      reply.fault == if SaveCall in failing then StoreUnavailable(SaveCall) else DuplicateCallSid(SimulatedCallSid(now))
    ensures file.Some? && CheckUpload(file.value.mimetype, file.value.size).Accepted? && SaveCall in failing ==>
      reply == ServerError(StoreUnavailable(SaveCall))
    ensures !reply.Answer? ==> db.calls == old(db.calls)
    ensures reply.Answer? ==>
      reply.code == 201 && reply.body == old(db.nextId) &&
      db.calls == old(db.calls)[reply.body := SimulatedCall(file.value, from, twilioNumber, now)]
  {
    if file.None? {
      return NoAudioFile;
    }
    var verdict := CheckUpload(file.value.mimetype, file.value.size);
    if !verdict.Accepted? {
      return Refused(verdict);
    }
    if SaveCall in failing {
      return ServerError(StoreUnavailable(SaveCall));
    }
    var inserted := db.InsertCall(SimulatedCall(file.value, from, twilioNumber, now));
    match inserted
    case Err(fault) => reply := ServerError(fault);
    case Ok(id) => reply := Answer(201, id);
  }
}

/** The test router mounted by the main application: its simulate-call route hands the stored
    call to the service-module pipeline with the uploaded file as a local recording. Its status
    and list routes return the projections of module Views. */
module TestRoutes {
  import opened Wrappers
  import opened Faults
  import opened CallModel
  import opened Documents
  import opened Pipeline
  import opened Uploads
  import opened Replies
  import Simulation

  /** `POST /simulate-call`: store the simulated call, then start the service pipeline on the
      uploaded file without waiting for it (`trigger`). */
  method SimulateCall(db: Database, file: Option<UploadedFile>, from: Option<string>,
                      twilioNumber: Option<string>, failing: set<StoreRequest>, now: nat)
    returns (reply: Reply<Id>, trigger: Option<Trigger>)
    requires db.Valid()
    modifies db
    ensures db.Valid() && (old(db.Linked()) ==> db.Linked())
    ensures db.transcriptions == old(db.transcriptions)
    ensures file.None? ==> reply == NoAudioFile
    ensures reply.Answer? <==>
      file.Some? && CheckUpload(file.value.mimetype, file.value.size).Accepted? &&
      SaveCall !in failing && !CallSidTaken(old(db.calls), Simulation.SimulatedCallSid(now))
    ensures reply.Answer? ==>
      reply.code == 201 && reply.body == old(db.nextId) &&
      db.calls == old(db.calls)[reply.body := Simulation.SimulatedCall(file.value, from, twilioNumber, now)] &&
      trigger == Some(RunServicePipeline(reply.body, file.value.path, true))
    ensures file.Some? && CheckUpload(file.value.mimetype, file.value.size).Accepted? && SaveCall in failing ==>
      reply == ServerError(StoreUnavailable(SaveCall))
    ensures !reply.Answer? ==> db.calls == old(db.calls) && trigger.None?
  {
    reply := Simulation.SimulateCall(db, file, from, twilioNumber, failing, now);
    trigger := if reply.Answer? then Some(RunServicePipeline(reply.body, file.value.path, true)) else None;
  }
}

/** The transcription controller: create, read, list, edit and delete transcriptions, keeping
    the owning call's transcriptionId and status in step. */
module TranscriptionController {
  import opened Wrappers
  import opened Faults
  import opened CallModel
  import opened TranscriptionModel
  import opened Documents
  import opened Replies
  import opened Views
  import opened Pipeline

  /** The fields `createTranscription` takes from the request body. */
  function PostedFields(callId: Option<Id>, text: Option<string>, confidence: Option<real>): TranscriptionFields {
    TranscriptionFields(callId := callId, text := text, confidence := confidence,
                        tags := None, categories := None, summary := None)
  }

  /** `createTranscription`: validate and store the transcription, then give the call it names
      that transcription and status `transcription_complete` (nothing happens to the calls when
      no call has that id). A validation failure or a save that throws is answered with 500 and
      stores nothing; a link write that throws is answered with 500 too, but the saved
      transcription stays, referenced by no call. */
  method CreateTranscription(db: Database, callId: Option<Id>, text: Option<string>, confidence: Option<real>,
                             failing: set<StoreRequest>, now: nat)
    returns (reply: Reply<(Id, Transcription)>)
    requires db.Valid()
    modifies db
    ensures db.Valid() && (old(db.Linked()) ==> db.Linked())
    ensures reply.Answer? || reply.ServerError?
    ensures reply.Answer? <==>
      callId.Some? && Present(text) && SaveTranscription !in failing && MarkComplete !in failing
    ensures (callId.None? || !Present(text)) ==>
      reply == ServerError(ValidationFailed(MissingTranscriptionPaths(PostedFields(callId, text, confidence)))) &&
      db.calls == old(db.calls) && db.transcriptions == old(db.transcriptions)
    ensures callId.Some? && Present(text) && SaveTranscription in failing ==>
      reply == ServerError(StoreUnavailable(SaveTranscription)) &&
      db.calls == old(db.calls) && db.transcriptions == old(db.transcriptions)
    ensures callId.Some? && Present(text) && SaveTranscription !in failing && MarkComplete in failing ==>
      reply == ServerError(StoreUnavailable(MarkComplete)) &&
      db.calls == old(db.calls) &&
      db.transcriptions == old(db.transcriptions)[old(db.nextId) :=
        NewTranscription(PostedFields(callId, text, confidence), now).value]
    ensures reply.Answer? ==>
      var (id, t) := reply.body;
      && reply.code == 201 && id == old(db.nextId) && id !in old(db.transcriptions)
      && t.callId == callId.value && t.text == text.value
      && t.confidence == (if confidence.Some? then confidence.value else 0.0)
      && t.tags == [] && t.categories == [] && t.summary.None?
      && t.createdAt == now && t.updatedAt == now
      && db.transcriptions == old(db.transcriptions)[id := t]
      && db.calls == ApplyCallUpdate(old(db.calls), callId.value, SetLink(Some(id), TranscriptionComplete))
  {
    var fields := PostedFields(callId, text, confidence);
    var built := NewTranscription(fields, now);
    if built.Err? {
      return ServerError(built.error);
    }
    var r, effects := SaveAndLink(db, callId.value, fields, failing, now);
    if r.Err? {
      return ServerError(r.error);
    }
    reply := Answer(201, (r.value, built.value));
  }

  /** After a transcription is created for a stored call, that call's status reply shows it. */
  lemma CreatedTranscriptionIsShown(calls: map<Id, Call>, transcriptions: map<Id, Transcription>,
                                    id: Id, t: Transcription)
    requires t.callId in calls && id !in transcriptions
    ensures var after := ApplyCallUpdate(calls, t.callId, SetLink(Some(id), TranscriptionComplete));
      && CallStatus(after, transcriptions[id := t], t.callId).Ok?
      && CallStatus(after, transcriptions[id := t], t.callId).value.status == TranscriptionComplete
      && CallStatus(after, transcriptions[id := t], t.callId).value.transcription ==
           Some(TranscriptionDetail(t.text, t.summary, t.categories, t.tags))
  {
    var after := ApplyCallUpdate(calls, t.callId, SetLink(Some(id), TranscriptionComplete));
    assert after[t.callId].transcriptionId == Some(id);
  }

  /** `getTranscriptionById`: 404 for an unknown id, otherwise the stored transcription. */
  function GetTranscriptionById(transcriptions: map<Id, Transcription>, id: Id): (reply: Reply<Transcription>)
    ensures reply.NotFound? <==> id !in transcriptions
    ensures reply.Answer? || reply.NotFound?
    ensures reply.Answer? ==> reply.code == 200 && reply.body == transcriptions[id]
  {
    match FindById(transcriptions, id)
    case Err(_) => NotFound
    case Ok(t) => Answer(200, t)
  }

  /** The document `updateTranscription` leaves: the posted text and confidence where they are
      defined, the update time, and nothing else changed. */
  function Edited(t: Transcription, text: Option<string>, confidence: Option<real>, now: nat): (u: Transcription)
    ensures u.text == (if text.Some? then text.value else t.text)
    ensures u.confidence == (if confidence.Some? then confidence.value else t.confidence)
    ensures u.updatedAt == now
    ensures u.(text := t.text, confidence := t.confidence, updatedAt := t.updatedAt) == t
  {
    t.(text := if text.Some? then text.value else t.text,
       confidence := if confidence.Some? then confidence.value else t.confidence,
       updatedAt := now)
  }

  /** Sending the same edit twice leaves the document as sending it once. */
  lemma EditIsIdempotent(t: Transcription, text: Option<string>, confidence: Option<real>, now: nat)
    ensures Edited(Edited(t, text, confidence, now), text, confidence, now) == Edited(t, text, confidence, now)
  {
  }

  /** `updateTranscription`: 404 for an unknown id; otherwise the edited document, which is
      returned. The update skips schema validation, so an empty text is stored as sent. */
  method UpdateTranscription(db: Database, id: Id, text: Option<string>, confidence: Option<real>, now: nat)
    returns (reply: Reply<Transcription>)
    requires db.Valid()
    modifies db
    ensures db.Valid() && (old(db.Linked()) ==> db.Linked())
    ensures reply.Answer? || reply.NotFound?
    ensures reply.NotFound? <==> id !in old(db.transcriptions)
    ensures reply.NotFound? ==> db.transcriptions == old(db.transcriptions)
    ensures reply.Answer? ==>
      reply.code == 200 && reply.body == Edited(old(db.transcriptions)[id], text, confidence, now) &&
      db.transcriptions == old(db.transcriptions)[id := reply.body]
    ensures db.calls == old(db.calls)
  {
    var current := FindById(db.transcriptions, id);
    if current.Err? {
      return NotFound;
    }
    var edited := Edited(current.value, text, confidence, now);
    db.ReplaceTranscription(id, edited);
    reply := Answer(200, edited);
  }

  /** `deleteTranscription`: 404 for an unknown id, with nothing changed; otherwise the
      transcription goes and the call it belonged to loses its transcriptionId and gets status
      `transcription_deleted`, whatever its status was. A delete that throws is answered with
      500 and changes nothing; an unlink write that throws is answered with 500 after the
      transcription is gone, so its call may be left naming it. */
  method DeleteTranscription(db: Database, id: Id, failing: set<StoreRequest>) returns (reply: Reply<()>)
    requires db.Valid()
    modifies db
    ensures db.Valid() && (old(db.Linked()) && MarkDeleted !in failing ==> db.Linked())
    ensures reply.Answer? || reply.NotFound? || reply.ServerError?
    ensures reply.NotFound? <==> DeleteRecord !in failing && id !in old(db.transcriptions)
    ensures reply.Answer? <==> DeleteRecord !in failing && MarkDeleted !in failing && id in old(db.transcriptions)
    ensures reply.NotFound? ==> db.calls == old(db.calls) && db.transcriptions == old(db.transcriptions)
    ensures DeleteRecord in failing ==>
      reply == ServerError(StoreUnavailable(DeleteRecord)) &&
      db.calls == old(db.calls) && db.transcriptions == old(db.transcriptions)
    ensures DeleteRecord !in failing && MarkDeleted in failing && id in old(db.transcriptions) ==>
      reply == ServerError(StoreUnavailable(MarkDeleted)) &&
      db.transcriptions == old(db.transcriptions) - {id} && db.calls == old(db.calls)
    ensures reply.Answer? ==>
      reply.code == 200 &&
      db.transcriptions == old(db.transcriptions) - {id} &&
      db.calls == ApplyCallUpdate(old(db.calls), old(db.transcriptions)[id].callId,
                                  SetLink(None, TranscriptionDeleted))
  {
    if DeleteRecord in failing {
      return ServerError(StoreUnavailable(DeleteRecord));
    }
    var removed := db.RemoveTranscription(id);
    if removed.None? {
      assert db.transcriptions == old(db.transcriptions);
      return NotFound;
    }
    if MarkDeleted in failing {
      return ServerError(StoreUnavailable(MarkDeleted));
    }
    var found := db.UpdateCall(removed.value.callId, SetLink(None, TranscriptionDeleted));
    if old(db.Linked()) {
      UnlinkKeepsReferences(old(db.calls), old(db.transcriptions), id);
    }
    reply := Answer(200, ());
  }

  /** When the unlink write of a delete throws, a call that held the deleted transcription is
      left naming a document that no longer exists. */
  lemma FailedUnlinkLeavesDanglingReference(calls: map<Id, Call>, transcriptions: map<Id, Transcription>, id: Id)
    requires References(calls, transcriptions) && id in transcriptions
    requires transcriptions[id].callId in calls && calls[transcriptions[id].callId].transcriptionId == Some(id)
    ensures !References(calls, transcriptions - {id})
    ensures Populated(transcriptions - {id}, calls[transcriptions[id].callId].transcriptionId).None?
  {
  }

  /** Deleting a transcription and unlinking the call it belonged to keeps every remaining
      reference backed: only that call can have named it. */
  lemma UnlinkKeepsReferences(calls: map<Id, Call>, transcriptions: map<Id, Transcription>, id: Id)
    requires References(calls, transcriptions) && id in transcriptions
    ensures References(ApplyCallUpdate(calls, transcriptions[id].callId, SetLink(None, TranscriptionDeleted)),
                       transcriptions - {id})
  {
    var owner := transcriptions[id].callId;
    var after := ApplyCallUpdate(calls, owner, SetLink(None, TranscriptionDeleted));
    var rest := transcriptions - {id};
    forall c | c in after && after[c].transcriptionId.Some?
      ensures after[c].transcriptionId.value in rest && rest[after[c].transcriptionId.value].callId == c
    {
      assert c != owner;
      assert after[c] == calls[c];
    }
  }
}

/** The document store behind the two models: the Call and Transcription collections and the
    query semantics the handlers rely on (lookup by id, update by id, delete by id, insert with
    the callSid index, sort by creation time). */
module Documents {
  import opened Wrappers
  import opened Faults
  import opened CallModel
  import opened TranscriptionModel

  /** `Call.findByIdAndUpdate(id, ...)` payloads. */
  datatype CallUpdate =
    | SetStatus(status: Status)
    | SetLink(transcriptionId: Option<Id>, status: Status)

  /** The calls after `findByIdAndUpdate(id, u)`: nothing happens when no call has that id. */
  function ApplyCallUpdate(calls: map<Id, Call>, id: Id, u: CallUpdate): (after: map<Id, Call>)
    ensures after.Keys == calls.Keys
    ensures forall k :: k in calls && k != id ==> after[k] == calls[k]
    ensures id in calls ==> after[id].status == u.status
    ensures id in calls ==>
      after[id].transcriptionId == (if u.SetLink? then u.transcriptionId else calls[id].transcriptionId)
    ensures id in calls ==> after[id].(status := calls[id].status, transcriptionId := calls[id].transcriptionId) == calls[id]
  {
    if id !in calls then calls
    else
      match u
      case SetStatus(s) => calls[id := calls[id].(status := s)]
      case SetLink(t, s) => calls[id := calls[id].(transcriptionId := t, status := s)]
  }

  /** A later status write to the same call overrides an earlier one. */
  lemma LaterStatusWins(calls: map<Id, Call>, id: Id, s1: Status, u: CallUpdate)
    ensures ApplyCallUpdate(ApplyCallUpdate(calls, id, SetStatus(s1)), id, u) == ApplyCallUpdate(calls, id, u)
  {
  }

  /** The cross-reference the handlers maintain: a call's transcriptionId names an existing
      transcription that belongs to that call. */
  ghost predicate References(calls: map<Id, Call>, transcriptions: map<Id, Transcription>) {
    forall c :: c in calls && calls[c].transcriptionId.Some? ==>
      calls[c].transcriptionId.value in transcriptions &&
      transcriptions[calls[c].transcriptionId.value].callId == c
  }

  /** A link written by `u` names an existing transcription that belongs to call `id`. */
  predicate LinkBacked(transcriptions: map<Id, Transcription>, id: Id, u: CallUpdate) {
    u.SetLink? && u.transcriptionId.Some? ==>
      u.transcriptionId.value in transcriptions && transcriptions[u.transcriptionId.value].callId == id
  }

  /** Status writes, unlinking and backed links keep the cross-references intact. */
  lemma UpdateKeepsReferences(calls: map<Id, Call>, transcriptions: map<Id, Transcription>, id: Id, u: CallUpdate)
    requires References(calls, transcriptions) && LinkBacked(transcriptions, id, u)
    ensures References(ApplyCallUpdate(calls, id, u), transcriptions)
  {
    var after := ApplyCallUpdate(calls, id, u);
    forall c | c in after && after[c].transcriptionId.Some?
      ensures after[c].transcriptionId.value in transcriptions
      ensures transcriptions[after[c].transcriptionId.value].callId == c
    {
      if c != id {
        assert after[c] == calls[c];
      }
    }
  }

  /** `ids` lists the keys of `created` once each, newest first. */
  ghost predicate NewestFirstOrder(ids: seq<Id>, created: map<Id, nat>) {
    && |ids| == |created|
    && (forall i :: 0 <= i < |ids| ==> ids[i] in created)
    && (forall k :: k in created ==> k in ids)
    && (forall i, j :: 0 <= i < j < |ids| ==> ids[i] != ids[j])
    && (forall i, j :: 0 <= i < j < |ids| ==> created[ids[i]] >= created[ids[j]])
  }

  /** The ids of `created` sorted by creation time, newest first, as `find().sort({ createdAt: -1 })`
      returns them. Documents created at the same time come in an unspecified order. */
  ghost function NewestFirst(created: map<Id, nat>): (ids: seq<Id>)
    ensures NewestFirstOrder(ids, created)
    decreases |created|
  {
    if |created| == 0 then []
    else
      NewestExists(created);
      var k :| k in created && forall j :: j in created ==> created[j] <= created[k];
      var rest := created - {k};
      assert rest.Keys == created.Keys - {k};
      var tail := NewestFirst(rest);
      NewestFirstCons(k, tail, created);
      [k] + tail
  }

  /** Putting a newest key in front of an ordering of the others orders them all. */
  lemma NewestFirstCons(k: Id, tail: seq<Id>, created: map<Id, nat>)
    requires k in created && forall j :: j in created ==> created[j] <= created[k]
    requires NewestFirstOrder(tail, created - {k})
    ensures NewestFirstOrder([k] + tail, created)
  {
    var rest := created - {k};
    assert rest.Keys == created.Keys - {k};
    assert |rest.Keys| == |created.Keys| - 1;
    ConsOrdered(k, tail, created);
    ConsCovers(k, tail, created);
  }

  lemma ConsOrdered(k: Id, tail: seq<Id>, created: map<Id, nat>)
    requires k in created && forall j :: j in created ==> created[j] <= created[k]
    requires forall i :: 0 <= i < |tail| ==> tail[i] in created && tail[i] != k
    requires forall i, j :: 0 <= i < j < |tail| ==> tail[i] != tail[j]
    requires forall i, j :: 0 <= i < j < |tail| ==> created[tail[i]] >= created[tail[j]]
    ensures forall i, j :: 0 <= i < j < |[k] + tail| ==> ([k] + tail)[i] != ([k] + tail)[j]
    ensures forall i, j :: 0 <= i < j < |[k] + tail| ==> created[([k] + tail)[i]] >= created[([k] + tail)[j]]
  {
    var ids := [k] + tail;
    forall i, j | 0 <= i < j < |ids|
      ensures ids[i] != ids[j] && created[ids[i]] >= created[ids[j]]
    {
      assert ids[j] == tail[j - 1];
      if i > 0 {
        assert ids[i] == tail[i - 1];
      }
    }
  }

  lemma ConsCovers(k: Id, tail: seq<Id>, created: map<Id, nat>)
    requires k in created
    requires forall c :: c in created - {k} ==> c in tail
    requires forall i :: 0 <= i < |tail| ==> tail[i] in created - {k}
    ensures forall i :: 0 <= i < |[k] + tail| ==> ([k] + tail)[i] in created
    ensures forall c :: c in created ==> c in [k] + tail
  {
    forall c | c in created
      ensures c in [k] + tail
    {
      if c != k {
        assert c in created - {k};
      }
    }
  }

  /** A non-empty map has a key of greatest creation time. */
  lemma {:induction false} NewestExists(created: map<Id, nat>)
    requires |created| > 0
    ensures exists k :: k in created && forall j :: j in created ==> created[j] <= created[k]
    decreases |created|
  {
    var k0 :| k0 in created;
    var rest := created - {k0};
    assert rest.Keys == created.Keys - {k0};
    if |rest| == 0 {
      OnlyKeyIsNewest(created, k0);
    } else {
      NewestExists(rest);
      var k1 :| k1 in rest && forall j :: j in rest ==> rest[j] <= rest[k1];
      NewerOfTwo(created, k0, k1);
    }
  }

  lemma OnlyKeyIsNewest(created: map<Id, nat>, k0: Id)
    requires k0 in created && |created - {k0}| == 0
    ensures forall j :: j in created ==> created[j] <= created[k0]
  {
    assert created - {k0} == map[];
  }

  lemma NewerOfTwo(created: map<Id, nat>, k0: Id, k1: Id)
    requires k0 in created && k1 in created - {k0}
    requires forall j :: j in created - {k0} ==> created[j] <= created[k1]
    ensures exists k :: k in created && forall j :: j in created ==> created[j] <= created[k]
  {
    var top := if created[k1] >= created[k0] then k1 else k0;
    forall j | j in created
      ensures created[j] <= created[top]
    {
      if j != k0 {
        assert j in created - {k0};
      }
    }
  }

  /** `list` holds each document of `docs` once, paired with its id, ordered by the creation
      times `created`, newest first. */
  ghost predicate ListedNewestFirst<V>(list: seq<(Id, V)>, docs: map<Id, V>, created: map<Id, nat>)
    requires created.Keys == docs.Keys
  {
    && |list| == |docs|
    && (forall i :: 0 <= i < |list| ==> list[i].0 in docs && list[i].1 == docs[list[i].0])
    && (forall k :: k in docs ==> exists i :: 0 <= i < |list| && list[i].0 == k)
    && (forall i, j :: 0 <= i < j < |list| ==> list[i].0 != list[j].0)
    && (forall i, j :: 0 <= i < j < |list| ==> created[list[i].0] >= created[list[j].0])
  }

  /** The documents of `docs` as `find().sort({ createdAt: -1 })` returns them. Documents created
      at the same time come in an unspecified order. */
  ghost function NewestFirstDocs<V>(docs: map<Id, V>, created: map<Id, nat>): (list: seq<(Id, V)>)
    requires created.Keys == docs.Keys
    ensures ListedNewestFirst(list, docs, created)
  {
    var ids := NewestFirst(created);
    var list := Pairs(docs, ids);
    PairsFollowOrder(docs, created, ids, list);
    list
  }

  /** The documents named by `ids`, in that order. */
  function Pairs<V>(docs: map<Id, V>, ids: seq<Id>): (list: seq<(Id, V)>)
    requires forall i :: 0 <= i < |ids| ==> ids[i] in docs
    ensures |list| == |ids|
    ensures forall i :: 0 <= i < |ids| ==> list[i] == (ids[i], docs[ids[i]])
  {
    if ids == [] then [] else [(ids[0], docs[ids[0]])] + Pairs(docs, ids[1..])
  }

  lemma PairsFollowOrder<V>(docs: map<Id, V>, created: map<Id, nat>, ids: seq<Id>, list: seq<(Id, V)>)
    requires created.Keys == docs.Keys
    requires NewestFirstOrder(ids, created)
    requires |list| == |ids| && forall i :: 0 <= i < |ids| ==> list[i] == (ids[i], docs[ids[i]])
    ensures ListedNewestFirst(list, docs, created)
  {
    assert |created| == |docs| by {
      assert created.Keys == docs.Keys;
    }
    forall k | k in docs
      ensures exists i :: 0 <= i < |list| && list[i].0 == k
    {
      var i := IndexOf(ids, k);
      assert list[i].0 == k;
    }
  }

  /** Where `x` sits in a sequence that holds it. */
  function IndexOf(ids: seq<Id>, x: Id): (i: nat)
    requires x in ids
    ensures i < |ids| && ids[i] == x
  {
    if ids[0] == x then 0 else 1 + IndexOf(ids[1..], x)
  }

  /** `Call.find().sort({ createdAt: -1 })`: every stored call once, newest first. */
  ghost function AllCalls(calls: map<Id, Call>): (list: seq<(Id, Call)>)
    ensures |list| == |calls|
    ensures forall i :: 0 <= i < |list| ==> list[i].0 in calls && list[i].1 == calls[list[i].0]
    ensures forall k :: k in calls ==> exists i :: 0 <= i < |list| && list[i].0 == k
    ensures forall i, j :: 0 <= i < j < |list| ==> list[i].0 != list[j].0
    ensures forall i, j :: 0 <= i < j < |list| ==> list[i].1.createdAt >= list[j].1.createdAt
  {
    NewestFirstDocs(calls, map k | k in calls :: calls[k].createdAt)
  }

  /** `Transcription.find().sort({ createdAt: -1 })`: every stored transcription once, newest first. */
  ghost function AllTranscriptions(transcriptions: map<Id, Transcription>): (list: seq<(Id, Transcription)>)
    ensures |list| == |transcriptions|
    ensures forall i :: 0 <= i < |list| ==>
      list[i].0 in transcriptions && list[i].1 == transcriptions[list[i].0]
    ensures forall k :: k in transcriptions ==> exists i :: 0 <= i < |list| && list[i].0 == k
    ensures forall i, j :: 0 <= i < j < |list| ==> list[i].0 != list[j].0
    ensures forall i, j :: 0 <= i < j < |list| ==> list[i].1.createdAt >= list[j].1.createdAt
  {
    NewestFirstDocs(transcriptions, map k | k in transcriptions :: transcriptions[k].createdAt)
  }

  /** `Model.findById(id)`: the document, or 404 when none has that id. */
  function FindById<V>(docs: map<Id, V>, id: Id): (r: Result<V, int>)
    ensures r.Err? <==> id !in docs
    ensures r.Err? ==> r.error == 404
    ensures r.Ok? ==> r.value == docs[id]
  {
    if id in docs then Ok(docs[id]) else Err(404)
  }

  /** The two collections and the identifier counter. */
  class Database {
    var calls: map<Id, Call>
    var transcriptions: map<Id, Transcription>
    var nextId: Id

    /** Identifiers are never reused, the callSid index is unique and every call passed validation. */
    ghost predicate Valid()
      reads this
    {
      && (forall k :: k in calls ==> k < nextId)
      && (forall k :: k in transcriptions ==> k < nextId)
      && UniqueCallSids(calls)
      && (forall k :: k in calls ==> WellFormedCall(calls[k]))
    }

    /** Every call's transcriptionId is backed by a transcription of that call. */
    ghost predicate Linked()
      reads this
    {
      References(calls, transcriptions)
    }

    constructor ()
      ensures Valid() && Linked()
      ensures calls == map[] && transcriptions == map[]
    {
      calls, transcriptions, nextId := map[], map[], 0;
    }

    /** `call.save()` of a validated new call. */
    method InsertCall(c: Call) returns (r: Result<Id, Fault>)
      requires Valid() && WellFormedCall(c)
      modifies this
      ensures Valid()
      ensures transcriptions == old(transcriptions)
      ensures r.Err? <==> CallSidTaken(old(calls), c.callSid)
      ensures r.Err? ==> r.error == DuplicateCallSid(c.callSid) && calls == old(calls)
      ensures r.Ok? ==> r.value == old(nextId) && r.value !in old(calls) && r.value !in old(transcriptions)
      ensures r.Ok? ==> calls == old(calls)[r.value := c]
      ensures old(Linked()) && c.transcriptionId.None? ==> Linked()
    {
      if CallSidTaken(calls, c.callSid) {
        return Err(DuplicateCallSid(c.callSid));
      }
      InsertKeepsCallSidsUnique(calls, nextId, c);
      calls := calls[nextId := c];
      r := Ok(nextId);
      nextId := nextId + 1;
    }

    /** `transcription.save()` of a validated new transcription. */
    method InsertTranscription(t: Transcription) returns (id: Id)
      requires Valid()
      modifies this
      ensures Valid()
      ensures calls == old(calls)
      ensures id == old(nextId) && id !in old(transcriptions) && id !in old(calls)
      ensures transcriptions == old(transcriptions)[id := t]
      ensures old(Linked()) ==> Linked()
    {
      id := nextId;
      transcriptions := transcriptions[id := t];
      nextId := nextId + 1;
    }

    /** `Call.findByIdAndUpdate(id, u)`; reports whether a call had that id. */
    method UpdateCall(id: Id, u: CallUpdate) returns (found: bool)
      requires Valid()
      modifies this
      ensures Valid()
      ensures found == (id in old(calls))
      ensures calls == ApplyCallUpdate(old(calls), id, u)
      ensures transcriptions == old(transcriptions) && nextId == old(nextId)
      ensures old(Linked()) && LinkBacked(transcriptions, id, u) ==> Linked()
    {
      found := id in calls;
      calls := ApplyCallUpdate(calls, id, u);
      assert UniqueCallSids(calls) by {
        forall a, b | a in calls && b in calls && a != b
          ensures calls[a].callSid != calls[b].callSid
        {
          assert calls[a].callSid == old(calls)[a].callSid;
          assert calls[b].callSid == old(calls)[b].callSid;
        }
      }
      if old(Linked()) && LinkBacked(transcriptions, id, u) {
        UpdateKeepsReferences(old(calls), transcriptions, id, u);
      }
    }

    /** `Call.findByIdAndDelete(id)`; returns the removed call, if any. */
    method RemoveCall(id: Id) returns (removed: Option<Call>)
      requires Valid()
      modifies this
      ensures Valid()
      ensures removed == (if id in old(calls) then Some(old(calls)[id]) else None)
      ensures calls == old(calls) - {id}
      ensures transcriptions == old(transcriptions) && nextId == old(nextId)
      ensures old(Linked()) ==> Linked()
    {
      removed := if id in calls then Some(calls[id]) else None;
      calls := calls - {id};
    }

    /** `Transcription.findByIdAndDelete(id)`; returns the removed transcription, if any. */
    method RemoveTranscription(id: Id) returns (removed: Option<Transcription>)
      requires Valid()
      modifies this
      ensures Valid()
      ensures removed == (if id in old(transcriptions) then Some(old(transcriptions)[id]) else None)
      ensures transcriptions == old(transcriptions) - {id}
      ensures calls == old(calls) && nextId == old(nextId)
    {
      removed := if id in transcriptions then Some(transcriptions[id]) else None;
      transcriptions := transcriptions - {id};
    }

    /** `Transcription.findByIdAndUpdate(id, t)` of a transcription that keeps its owning call. */
    method ReplaceTranscription(id: Id, t: Transcription)
      requires Valid()
      requires id in transcriptions && transcriptions[id].callId == t.callId
      modifies this
      ensures Valid()
      ensures transcriptions == old(transcriptions)[id := t]
      ensures calls == old(calls) && nextId == old(nextId)
      ensures old(Linked()) ==> Linked()
    {
      transcriptions := transcriptions[id := t];
    }
  }
}

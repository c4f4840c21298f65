/** The read-only projections the status-polling and list routes return. */
module Views {
  import opened Wrappers
  import opened CallModel
  import opened TranscriptionModel
  import opened Documents

  /** The transcription part of a status reply. */
  datatype TranscriptionDetail = TranscriptionDetail(
    text: string, summary: Option<string>, categories: seq<string>, tags: seq<string>)

  /** The reply of the call-status route. */
  datatype CallStatusView = CallStatusView(
    callId: Id, status: Status, from: string, to: string, transcription: Option<TranscriptionDetail>)

  /** The transcription part of a call-list entry. */
  datatype TranscriptionBrief = TranscriptionBrief(text: string, summary: Option<string>)

  /** One entry of the call-list route. */
  datatype CallListEntry = CallListEntry(
    callId: Id, status: Status, from: string, to: string, createdAt: nat,
    transcription: Option<TranscriptionBrief>)

  /** `populate("transcriptionId")`: the referenced document, or null when the call has no
      reference or the reference names a document that no longer exists. */
  function Populated(transcriptions: map<Id, Transcription>, ref: Option<Id>): (t: Option<Transcription>)
    ensures t.Some? <==> ref.Some? && ref.value in transcriptions
    ensures t.Some? ==> t.value == transcriptions[ref.value]
  {
    if ref.Some? && ref.value in transcriptions then Some(transcriptions[ref.value]) else None
  }

  /** The call-status route: 404 for an unknown id, otherwise the call's status, numbers and
      (when populated) its transcription's text, summary, categories and tags. */
  function CallStatus(calls: map<Id, Call>, transcriptions: map<Id, Transcription>, id: Id)
    : (r: Result<CallStatusView, int>)
    ensures r.Err? <==> id !in calls
    ensures r.Err? ==> r.error == 404
    ensures r.Ok? ==> r.value.callId == id && r.value.status == calls[id].status
    ensures r.Ok? ==> r.value.from == calls[id].from && r.value.to == calls[id].to
    ensures r.Ok? ==> (r.value.transcription.Some? <==>
      calls[id].transcriptionId.Some? && calls[id].transcriptionId.value in transcriptions)
    ensures r.Ok? && r.value.transcription.Some? ==>
      var t := transcriptions[calls[id].transcriptionId.value];
      r.value.transcription.value == TranscriptionDetail(t.text, t.summary, t.categories, t.tags)
  {
    if id !in calls then Err(404)
    else
      var c := calls[id];
      var detail := match Populated(transcriptions, c.transcriptionId)
        case None => None
        case Some(t) => Some(TranscriptionDetail(t.text, t.summary, t.categories, t.tags));
      Ok(CallStatusView(id, c.status, c.from, c.to, detail))
  }

  /** With the cross-references intact, the status reply carries a transcription exactly when
      the call holds a transcriptionId, and that transcription is one of the call's own. */
  lemma StatusShowsLinkedTranscription(calls: map<Id, Call>, transcriptions: map<Id, Transcription>, id: Id)
    requires References(calls, transcriptions)
    requires id in calls
    ensures CallStatus(calls, transcriptions, id).Ok?
    ensures CallStatus(calls, transcriptions, id).value.transcription.None? <==> calls[id].transcriptionId.None?
    ensures calls[id].transcriptionId.Some? ==>
      transcriptions[calls[id].transcriptionId.value].callId == id &&
      CallStatus(calls, transcriptions, id).value.transcription.value.text ==
        transcriptions[calls[id].transcriptionId.value].text
  {
  }

  /** One call as the list route shows it. */
  function ListEntry(calls: map<Id, Call>, transcriptions: map<Id, Transcription>, id: Id): (e: CallListEntry)
    requires id in calls
    ensures e.callId == id && e.status == calls[id].status && e.createdAt == calls[id].createdAt
    ensures e.from == calls[id].from && e.to == calls[id].to
    ensures e.transcription.Some? <==> Populated(transcriptions, calls[id].transcriptionId).Some?
    ensures e.transcription.Some? ==>
      var t := Populated(transcriptions, calls[id].transcriptionId).value;
      e.transcription.value == TranscriptionBrief(t.text, t.summary)
  {
    var c := calls[id];
    var brief := match Populated(transcriptions, c.transcriptionId)
      case None => None
      case Some(t) => Some(TranscriptionBrief(t.text, t.summary));
    CallListEntry(id, c.status, c.from, c.to, c.createdAt, brief)
  }

  /** `e` is the list entry of a stored call. */
  ghost predicate ShowsCall(calls: map<Id, Call>, transcriptions: map<Id, Transcription>, e: CallListEntry) {
    e.callId in calls && e == ListEntry(calls, transcriptions, e.callId)
  }

  /** The call-list route: the stored calls in the order the query returns them, each shown as
      its list entry. */
  ghost function CallList(calls: map<Id, Call>, transcriptions: map<Id, Transcription>)
    : (entries: seq<CallListEntry>)
    ensures |entries| == |calls|
  {
    EntriesFor(calls, transcriptions, AllCalls(calls))
  }

  /** `entries` shows every stored call exactly once, each with its populated transcription,
      newest first. */
  ghost predicate ShowsCallsNewestFirst(calls: map<Id, Call>, transcriptions: map<Id, Transcription>,
                                        entries: seq<CallListEntry>)
  {
    && (forall i :: 0 <= i < |entries| ==> ShowsCall(calls, transcriptions, entries[i]))
    && (forall c :: c in calls ==> exists i :: 0 <= i < |entries| && entries[i].callId == c)
    && (forall i, j :: 0 <= i < j < |entries| ==> entries[i].callId != entries[j].callId)
    && (forall i, j :: 0 <= i < j < |entries| ==> entries[i].createdAt >= entries[j].createdAt)
  }

  /** The call list shows every stored call exactly once, newest first. */
  lemma CallListIsNewestFirst(calls: map<Id, Call>, transcriptions: map<Id, Transcription>)
    ensures ShowsCallsNewestFirst(calls, transcriptions, CallList(calls, transcriptions))
  {
    var list := AllCalls(calls);
    var entries := EntriesFor(calls, transcriptions, list);
    EntriesFollowList(calls, transcriptions, list, entries);
  }

  lemma EntriesFollowList(calls: map<Id, Call>, transcriptions: map<Id, Transcription>,
                          list: seq<(Id, Call)>, entries: seq<CallListEntry>)
    requires forall i :: 0 <= i < |list| ==> list[i].0 in calls && list[i].1 == calls[list[i].0]
    requires forall k :: k in calls ==> exists i :: 0 <= i < |list| && list[i].0 == k
    requires forall i, j :: 0 <= i < j < |list| ==> list[i].0 != list[j].0
    requires forall i, j :: 0 <= i < j < |list| ==> list[i].1.createdAt >= list[j].1.createdAt
    requires |entries| == |list|
    requires forall i :: 0 <= i < |list| ==> entries[i] == ListEntry(calls, transcriptions, list[i].0)
    ensures ShowsCallsNewestFirst(calls, transcriptions, entries)
  {
    forall i | 0 <= i < |entries|
      ensures ShowsCall(calls, transcriptions, entries[i])
    {
      assert entries[i].callId == list[i].0;
    }
    forall c | c in calls
      ensures exists i :: 0 <= i < |entries| && entries[i].callId == c
    {
      var i :| 0 <= i < |list| && list[i].0 == c;
      assert entries[i].callId == c;
    }
  }

  /** The list entries of the calls in `list`, in that order. */
  function EntriesFor(calls: map<Id, Call>, transcriptions: map<Id, Transcription>, list: seq<(Id, Call)>)
    : (entries: seq<CallListEntry>)
    requires forall i :: 0 <= i < |list| ==> list[i].0 in calls
    ensures |entries| == |list|
    ensures forall i :: 0 <= i < |list| ==> entries[i] == ListEntry(calls, transcriptions, list[i].0)
  {
    if list == [] then []
    else [ListEntry(calls, transcriptions, list[0].0)] + EntriesFor(calls, transcriptions, list[1..])
  }
}

/** The telephony helpers: the voice script played to callers, the guarded detail lookups and
    the recording download with its authenticated URL. */
module Twilio {
  import opened Wrappers
  import opened Text
  import opened Faults
  import opened Files

  /** One verb of a voice response. */
  datatype Verb =
    | SayVerb(voice: string, language: string, text: string)
    | RecordVerb(action: string, maxLength: int, transcribe: bool, playBeep: bool, timeout: int)

  const Greeting: string := "Thank you for calling. Please leave a message after the tone."
  const Farewell: string := "Thank you for your message. Goodbye."
  /** Where the provider posts the finished recording. */
  const RecordingStatusRoute: string := "/api/calls/recording-status"

  /** The voice-response builder: verbs are appended in the order they are added. */
  class VoiceResponse {
    var verbs: seq<Verb>

    constructor ()
      ensures verbs == []
    {
      verbs := [];
    }

    method Say(voice: string, language: string, text: string)
      modifies this
      ensures verbs == old(verbs) + [SayVerb(voice, language, text)]
    {
      verbs := verbs + [SayVerb(voice, language, text)];
    }

    method Record(action: string, maxLength: int, transcribe: bool, playBeep: bool, timeout: int)
      modifies this
      ensures verbs == old(verbs) + [RecordVerb(action, maxLength, transcribe, playBeep, timeout)]
    {
      verbs := verbs + [RecordVerb(action, maxLength, transcribe, playBeep, timeout)];
    }
  }

  /** The script for an incoming call: greet, record up to two minutes after a beep (ending
      after five silent seconds, without the provider's own transcription), then say goodbye. */
  method GenerateVoiceResponse() returns (response: VoiceResponse)
    ensures fresh(response)
    ensures response.verbs == [
      SayVerb("alice", "en-US", Greeting),
      RecordVerb(RecordingStatusRoute, 120, false, true, 5),
      SayVerb("alice", "en-US", Farewell)]
  {
    response := new VoiceResponse();
    response.Say("alice", "en-US", Greeting);
    response.Record(RecordingStatusRoute, 120, false, true, 5);
    response.Say("alice", "en-US", Farewell);
  }

  /** The provider's calls and recordings, by sid, as an initialised client reaches them. */
  datatype Account<C, R> = Account(calls: map<string, C>, recordings: map<string, R>)

  /** `getCallDetails(callSid)`; `client` is None when constructing the client threw. */
  function GetCallDetails<C, R>(client: Option<Account<C, R>>, callSid: string): (r: Result<C, Fault>)
    ensures client.None? ==> r == Err(ClientNotInitialised)
    ensures client.Some? ==> (r.Ok? <==> callSid in client.value.calls)
    ensures r.Ok? ==> r.value == client.value.calls[callSid]
    ensures client.Some? && r.Err? ==> r.error == UnknownResource(callSid)
  {
    if client.None? then Err(ClientNotInitialised)
    else if callSid in client.value.calls then Ok(client.value.calls[callSid])
    else Err(UnknownResource(callSid))
  }

  /** `getRecordingDetails(recordingSid)`, guarded the same way. */
  function GetRecordingDetails<C, R>(client: Option<Account<C, R>>, recordingSid: string): (r: Result<R, Fault>)
    ensures client.None? ==> r == Err(ClientNotInitialised)
    ensures client.Some? ==> (r.Ok? <==> recordingSid in client.value.recordings)
    ensures r.Ok? ==> r.value == client.value.recordings[recordingSid]
    ensures client.Some? && r.Err? ==> r.error == UnknownResource(recordingSid)
  {
    if client.None? then Err(ClientNotInitialised)
    else if recordingSid in client.value.recordings then Ok(client.value.recordings[recordingSid])
    else Err(UnknownResource(recordingSid))
  }

  /** The account sid as a template string renders it: an unset variable reads "undefined". */
  function SidText(accountSid: Option<string>): string {
    if accountSid.Some? then accountSid.value else "undefined"
  }

  /** The recording URL with the account sid appended as one more query parameter. */
  function AuthenticatedUrl(url: string, accountSid: Option<string>): (r: string)
    ensures StartsWith(r, url) && |r| > |url|
    ensures r[|url|] == (if '?' in url then '&' else '?')
    ensures r[|url| + 1..] == "AccountSid=" + SidText(accountSid)
  {
    url + [if '?' in url then '&' else '?'] + "AccountSid=" + SidText(accountSid)
  }

  /** A URL with at most one query separator keeps exactly one after authentication: the sid is
      appended to an existing query rather than starting a second one. */
  lemma AuthenticatedUrlHasOneQuery(url: string, accountSid: Option<string>)
    requires Occurrences(url, '?') <= 1
    requires '?' !in SidText(accountSid)
    ensures Occurrences(AuthenticatedUrl(url, accountSid), '?') == 1
  {
    var sep: char := if '?' in url then '&' else '?';
    var param := "AccountSid=" + SidText(accountSid);
    ParameterHasNoQuery(SidText(accountSid));
    assert AuthenticatedUrl(url, accountSid) == url + ([sep] + param);
    OccurrencesAppend(url, [sep] + param, '?');
    OccurrencesAppend([sep], param, '?');
    assert Occurrences([sep], '?') == (if sep == '?' then 1 else 0) by {
      assert [sep][1..] == [];
    }
  }

  lemma ParameterHasNoQuery(sid: string)
    requires '?' !in sid
    ensures Occurrences("AccountSid=" + sid, '?') == 0
  {
    var param := "AccountSid=" + sid;
    forall k | 0 <= k < |param|
      ensures param[k] != '?'
    {
      if k >= 11 {
        assert param[k] == sid[k - 11];
      }
    }
  }

  /** What the recording fetch gets back. */
  datatype FetchReply = Response(status: int, body: seq<bv8>) | NetworkError(cause: ApiError)

  /** The URL `downloadRecording` fetches; a reference starting with "/" is a local path and is
      never fetched. */
  function RecordingFetchUrl(recordingRef: string, accountSid: Option<string>): (u: Option<string>)
    ensures u.None? <==> StartsWith(recordingRef, "/")
    ensures u.Some? ==> u.value == AuthenticatedUrl(recordingRef, accountSid)
  {
    if StartsWith(recordingRef, "/") then None else Some(AuthenticatedUrl(recordingRef, accountSid))
  }

  /** `downloadRecording(recordingRef)`, where `reply` is what fetching `RecordingFetchUrl`
      returns: a local path comes back unchanged, an ok (2xx) answer yields its bytes, and any
      other answer or a failed fetch is an error. */
  function DownloadRecording(recordingRef: string, accountSid: Option<string>, reply: FetchReply)
    : (r: Result<Audio, Fault>)
    ensures StartsWith(recordingRef, "/") ==> r == Ok(LocalReference(recordingRef))
    ensures !StartsWith(recordingRef, "/") ==> (r.Ok? <==> reply.Response? && 200 <= reply.status <= 299)
    ensures !StartsWith(recordingRef, "/") && r.Ok? ==> r.value == Downloaded(reply.body)
    ensures !StartsWith(recordingRef, "/") && reply.NetworkError? ==> r == Err(FetchFailed(reply.cause))
    ensures !StartsWith(recordingRef, "/") && reply.Response? && r.Err? ==> r == Err(DownloadFailed(reply.status))
  {
    if StartsWith(recordingRef, "/") then Ok(LocalReference(recordingRef))
    else
      match reply
      case NetworkError(cause) => Err(FetchFailed(cause))
      case Response(status, body) =>
        if 200 <= status <= 299 then Ok(Downloaded(body)) else Err(DownloadFailed(status))
  }
}

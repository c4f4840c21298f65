/** The Transcription record: its fields, defaults and validation. */
module TranscriptionModel {
  import opened Wrappers
  import opened Faults
  import opened CallModel

  /** A stored transcription document. */
  datatype Transcription = Transcription(
    callId: Id,
    text: string,
    confidence: real,
    tags: seq<string>,
    categories: seq<string>,
    summary: Option<string>,
    createdAt: nat,
    updatedAt: nat)

  /** The fields a handler passes to `new Transcription({...})`; None is a field left undefined. */
  datatype TranscriptionFields = TranscriptionFields(
    callId: Option<Id>,
    text: Option<string>,
    confidence: Option<real>,
    tags: Option<seq<string>>,
    categories: Option<seq<string>>,
    summary: Option<string>)

  /** The speech-to-text service reports no score; the pipelines store this fixed placeholder. */
  const PlaceholderConfidence: real := 0.9

  /** The required paths of a transcription that the fields leave missing or empty. */
  function MissingTranscriptionPaths(f: TranscriptionFields): set<string> {
    (if f.callId.Some? then {} else {"callId"})
    + (if Present(f.text) then {} else {"text"})
  }

  /** Building and validating a transcription document at time `now`. */
  function NewTranscription(f: TranscriptionFields, now: nat): (r: Result<Transcription, Fault>)
    ensures r.Err? <==> f.callId.None? || !Present(f.text)
    ensures r.Err? ==> r.error == ValidationFailed(MissingTranscriptionPaths(f)) && r.error.paths != {}
    ensures r.Ok? ==> r.value.callId == f.callId.value && r.value.text == f.text.value && r.value.text != ""
    ensures r.Ok? ==> r.value.confidence == (if f.confidence.Some? then f.confidence.value else 0.0)
    ensures r.Ok? ==> r.value.tags == (if f.tags.Some? then f.tags.value else [])
    ensures r.Ok? ==> r.value.categories == (if f.categories.Some? then f.categories.value else [])
    ensures r.Ok? ==> r.value.summary == f.summary
    ensures r.Ok? ==> r.value.createdAt == now && r.value.updatedAt == now
  {
    if MissingTranscriptionPaths(f) != {} then
      Err(ValidationFailed(MissingTranscriptionPaths(f)))
    else
      Ok(Transcription(
        callId := f.callId.value,
        text := f.text.value,
        confidence := if f.confidence.Some? then f.confidence.value else 0.0,
        tags := if f.tags.Some? then f.tags.value else [],
        categories := if f.categories.Some? then f.categories.value else [],
        summary := f.summary,
        createdAt := now,
        updatedAt := now))
  }
}

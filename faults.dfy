/** What the core can throw, and the store requests that can fail. */
module Faults {
  import opened Wrappers

  /** An error thrown by an external API (speech-to-text, chat completion, the telephony SDK). */
  datatype ApiError = ApiError(message: string)

  /** The store requests the pipelines and handlers make that are modelled as able to throw,
      named so that a failing one can be singled out. */
  datatype StoreRequest =
    | MarkInProgress     // a pipeline's `transcription_in_progress` write
    | SaveTranscription  // saving a new transcription
    | MarkComplete       // linking the call to it as `transcription_complete`
    | MarkFailed         // a failed run's `transcription_failed` write
    | DeleteRecord       // `deleteTranscription` removing the transcription
    | MarkDeleted        // then unlinking its call as `transcription_deleted`
    | SaveCall           // the simulate-call route saving the new call
    | ReadRecord         // categorisation reading the transcription
    | SaveAnalysis       // categorisation writing the analysis back

  datatype Fault =
    | ValidationFailed(paths: set<string>)   // a required schema path is missing or empty
    | DuplicateCallSid(callSid: string)      // the unique index on callSid rejects the insert
    | StoreUnavailable(request: StoreRequest) // a store request threw
    | ServiceFailed(error: Option<ApiError>) // an API call threw; None is `throw undefined`
    | MalformedAnalysis                      // the chat reply is not a JSON object
    | DownloadFailed(status: int)            // the recording fetch answered with a non-ok status
    | FetchFailed(cause: ApiError)           // the recording fetch did not get an answer
    | TranscriptionMissingOrEmpty            // categorisation found no text to analyse
    | ClientNotInitialised                   // the telephony client could not be constructed
    | UnknownResource(sid: string)           // the telephony provider has no call or recording with that sid
}

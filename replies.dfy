/** What a route handler answers. */
module Replies {
  import opened Wrappers
  import opened Faults
  import opened Uploads

  datatype Reply<T> =
    | Answer(code: int, body: T)       // a 200 or 201 with a JSON body
    | NotFound                         // 404: no document has the requested id
    | NoAudioFile                      // 400: the request carries no file part
    | Refused(verdict: UploadVerdict)  // the upload middleware's error; the handler never runs
    | ServerError(fault: Fault)        // 500 from the handler's catch block
  {
    /** The status code the handler itself sends; a refused upload is answered by the
        framework's error handling instead. */
    function Code(): Option<int> {
      match this
      case Answer(code, _) => Some(code)
      case NotFound => Some(404)
      case NoAudioFile => Some(400)
      case Refused(_) => None
      case ServerError(_) => Some(500)
    }
  }
}

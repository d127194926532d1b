/** Optional values, results and the error values the status handlers pass around. */
module Outcomes {

  /** A Go value that may be nil: an error return, a tracker, a fetcher. */
  datatype Option<+T> = None | Some(value: T)

  /**
   * The errors that reach a handler. Go compares error values by identity; the model
   * compares them by value, so "returned verbatim" means "the very same value".
   */
  datatype Error =
    | Message(text: string)         // an error made with errors.New(text)
    | NotFound(digest: string)      // the store holds no content for the digest
    | InvalidManifest(digest: string) // the content could not be parsed as its media type
    | NotTerminal                   // the output stream is not an interactive terminal

  /** A value or the error that prevented it. */
  datatype Result<+T> = Success(value: T) | Failure(error: Error)
}

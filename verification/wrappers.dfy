/** Failure-carrying values shared by the store and the orchestrator. */
module Wrappers {

  datatype Option<+T> = None | Some(value: T)

  /** Why an operation failed. The Go code passes collaborator errors on
      unchanged, and so does the model: the identity and payment services
      answer with whatever `Error` they choose, and that value is returned. */
  datatype Error =
    | Unauthorized                      // errors.New("unauthorized action")
    | StoreFailure(message: string)     // the storage engine reported an error
    | NotFound                          // no record carries the requested id
    | InvalidNumber(text: string)       // strconv.Atoi rejected the text
    | InvalidTime(text: string)         // RFC 3339 parsing rejected the text

  datatype Result<+T> = Ok(value: T) | Err(error: Error)
}

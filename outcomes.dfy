/** Success and failure values shared by every module of the model. */
module Outcomes {

  datatype Option<+T> = None | Some(value: T)

  /** The errors the plugin rejects with. Messages are represented by the data they print. */
  datatype Error =
    | OutsideOutputDir(file: string, dir: string)  // removeFiles refused a path outside `dir`
    | TestsFailed(failures: nat)                   // "Tests failed: N"
    | NotFound(path: string)                       // unlink of a path that does not exist
    | IoError(path: string)                        // any other failure of stat/unlink
    | Thrown(message: string)                      // raised by Mocha or by a caller-supplied hook

  /** How an awaited step settles: resolved, or rejected with an error. */
  datatype Outcome = Ok | Err(error: Error)

  /** A step that settles with a value or rejects with an error. */
  datatype Result<+T> = Success(value: T) | Failure(error: Error)
}

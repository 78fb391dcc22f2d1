/** Option and Result values, used wherever the runner either produces a value
    or reports an error and leaves with an exit status. */
module Outcomes {

  datatype Option<+T> = None | Some(value: T)

  datatype Result<+T, +E> = Ok(value: T) | Err(error: E)

  /** What the script does instead of going on: print `message` on stderr and
      call `process.exit(exitCode)`. */
  datatype Failure = Failure(message: string, exitCode: int)
}

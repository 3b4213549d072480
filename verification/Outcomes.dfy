/** The result shapes every other module uses: an optional value (SQL null, `undefined`), a function's
    outcome (a value, or the typed error the source throws), and what a command of one session comes
    to when it shares the database with others. */
module Outcomes {

  datatype Option<+T> = None | Some(value: T)

  datatype Result<+T, +E> = Ok(value: T) | Err(error: E)

  /** A statement or command either ends, with a result or an error that rolled it back, or is still
      waiting for a lock that another session holds. */
  datatype Progress<+T, +E> = Done(result: T) | Failed(error: E) | Waiting {

    predicate IsFailure() { !Done? }

    function PropagateFailure<U>(): Progress<U, E>
      requires !Done?
    {
      match this case Failed(e) => Failed(e) case Waiting => Waiting
    }

    function Extract(): T
      requires Done?
    {
      result
    }

    /** How it ended, without the result. */
    function Ending(): Progress<(), E> {
      match this case Done(_) => Done(()) case Failed(e) => Failed(e) case Waiting => Waiting
    }
  }
}

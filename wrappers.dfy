/** Failure-carrying values shared by every module of the model.

    Each provider call of the analysis layer either yields a record or fails.
    `Option` stands for the source's "fetch and swallow any exception",
    `Fetch` for the places where the source tells a PeeringDB "not found"
    apart from every other failure, and `Result` for an exception that the
    source lets escape to its caller. */
module Wrappers {

  datatype Option<+T> = None | Some(value: T) {
    /** The wrapped value, or `default` when there is none. */
    function GetOr(default: T): T {
      match this
      case Some(v) => v
      case None => default
    }
  }

  /** An operation that either returns a value or raises (the exception's
      kind is kept as a short tag). */
  datatype Result<+T> = Success(value: T) | Failure(error: string)

  /** A PeeringDB call: a record, a `PeeringDBNotFoundError`, or any other
      exception (transport error after retries, parse error, ...). */
  datatype Fetch<+T> = Ok(value: T) | NotFound | Failed {
    /** Every failure collapses to `None` where the source catches all of them. */
    function ToOption(): Option<T> {
      match this
      case Ok(v) => Some(v)
      case _ => None
    }
  }
}

/** Outcomes of calls into collaborators whose code is not part of this model. */
module Calls {

  /** An optional value (a Java reference that may be absent). */
  datatype Option<+T> = None | Some(value: T) {

    /** The value held, or `default` when there is none (`Optional.orElseGet`). */
    function GetOr(default: T): T {
      match this
      case Some(v) => v
      case None => default
    }
  }

  /** What a call into a collaborator produced: its answer, or an exception it threw
      (a network error, a malformed response, a missing record). */
  datatype Fallible<+T> = Ok(value: T) | Threw
}

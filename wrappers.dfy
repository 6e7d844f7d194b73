/**
 * Option and Result, the two wrappers the rest of the model uses for values
 * that may be absent and for operations that may raise, and the one set
 * fact the services share.
 */
module Wrappers {
  datatype Option<T> = None | Some(value: T)
  {
    function GetOr(dflt: T): T {
      match this
      case None => dflt
      case Some(v) => v
    }
  }

  /**
   * The answer of a call the model does not see into (the database, the
   * LLM): either it raised, or it returned a value.
   */
  datatype Answer<T> = Raised | Answered(value: T)

  /** `Err` carries the text of the exception the source raises. */
  datatype Result<T> = Ok(value: T) | Err(message: string)

  /** An element of a non-empty set. */
  lemma Element<T>(s: set<T>) returns (k: T)
    requires s != {}
    ensures k in s
  {
    if forall x :: x !in s {
      assert false;
    }
    k :| k in s;
  }
}

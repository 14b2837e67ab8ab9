/** Option and Result, the failure-carrying values used throughout the model. */
module Wrappers {

  datatype Option<+T> = None | Some(value: T) {
    function GetOr(default: T): T {
      match this
      case Some(v) => v
      case None => default
    }
  }

  datatype Result<+R, +E> = Ok(value: R) | Err(error: E)
}

/**
 * A value a JavaScript promise rejects with or a `throw` raises. The source
 * only ever asks `error instanceof Error` and then reads `error.message`, so a
 * thrown value is either an `Error` with its message or anything else.
 */
module Failures {

  datatype Thrown = Error(message: string) | NonError

  /** `error instanceof Error ? error.message : fallback` */
  function MessageOr(t: Thrown, fallback: string): (m: string)
    ensures t.Error? ==> m == t.message
    ensures t.NonError? ==> m == fallback
  {
    match t
    case Error(msg) => msg
    case NonError => fallback
  }
}

/**
 * Two facts about sequence concatenation, stated once so that large proofs
 * can name them instead of rediscovering them.
 */
module Sequences {

  lemma AppendNil<T>(a: seq<T>)
    ensures a + [] == a
  {
  }

  lemma AppendNilLeft<T>(a: seq<T>)
    ensures [] + a == a
  {
  }

  lemma AppendAssoc<T>(a: seq<T>, b: seq<T>, c: seq<T>)
    ensures a + b + c == a + (b + c)
  {
  }
}

/** Identifiers, options and the fate of one remote call, shared by every module. */
module Common {

  /** A UUID. */
  type Id = nat

  datatype Option<+T> = None | Some(value: T)

  /** What happens to one HTTP call made by a worker.
      - Delivered: the call ran and its own reply came back.
      - Refused: an error status came back and nothing was changed.
      - Dropped: the client library raised, the call never ran.
      - ReplyLost: the call ran, then the client library raised (a timeout).
      - Hollow: a success status came back although the work inside failed and the failure was
        swallowed; only the store's sync endpoint can do this, any other call reads it as Refused. */
  datatype Net = Delivered | Refused | Dropped | ReplyLost | Hollow {
    /** The callee executed the request. */
    predicate Ran() { Delivered? || ReplyLost? }

    /** The caller saw an exception rather than a status code. */
    predicate Raises() { Dropped? || ReplyLost? }
  }

  /** How a task handler ends: normally, with a BPMN error, or with any other exception. */
  datatype Outcome = Completed | BpmnError | Raised

  ghost function Elems(s: seq<Id>): (r: set<Id>)
    ensures forall x :: x in r <==> x in s
  {
    set x | x in s
  }
}

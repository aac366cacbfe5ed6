/** The offering publication process as declared in BPMN: tasks, flows and error boundary events. */
module SagaGraph {
  import opened Common

  datatype Node =
    | LockPrices | ValidateSpecs | CreateStoreEntry | ConfirmPublication
    | DeleteStoreEntry | UnlockPrices | RevertToDraft
    | Succeeded | Failed

  /** Where the error flow of Lock Prices leads: the target of the flow as declared, or the task
      that lists the flow as incoming. */
  datatype Route = ToUnlock | ToRevert

  predicate IsEnd(n: Node) { n == Succeeded || n == Failed }

  /** Tasks with an error boundary event. */
  predicate Guarded(n: Node) {
    n == LockPrices || n == ValidateSpecs || n == CreateStoreEntry || n == ConfirmPublication
  }

  function OnComplete(n: Node): Node {
    match n
    case LockPrices => ValidateSpecs
    case ValidateSpecs => CreateStoreEntry
    case CreateStoreEntry => ConfirmPublication
    case ConfirmPublication => Succeeded
    case DeleteStoreEntry => UnlockPrices
    case UnlockPrices => RevertToDraft
    case RevertToDraft => Failed
    case Succeeded => Succeeded
    case Failed => Failed
  }

  function OnError(r: Route, n: Node): Node
    requires Guarded(n)
  {
    match n
    case LockPrices => if r == ToUnlock then UnlockPrices else RevertToDraft
    case ValidateSpecs => UnlockPrices
    case CreateStoreEntry => UnlockPrices
    case ConfirmPublication => DeleteStoreEntry
  }

  /** fails(n): whether the handler of guarded task n raises its BPMN error. */
  function Advance(r: Route, n: Node, fails: Node -> bool): Node {
    if Guarded(n) && fails(n) then OnError(r, n) else OnComplete(n)
  }

  function Walk(r: Route, n: Node, fails: Node -> bool, steps: nat): Node {
    if steps == 0 then n else Advance(r, Walk(r, n, fails, steps - 1), fails)
  }

  function FirstFailure(fails: Node -> bool): Option<Node> {
    if fails(LockPrices) then Some(LockPrices)
    else if fails(ValidateSpecs) then Some(ValidateSpecs)
    else if fails(CreateStoreEntry) then Some(CreateStoreEntry)
    else if fails(ConfirmPublication) then Some(ConfirmPublication)
    else None
  }

  /** The number of tasks of a run, by the task that fails first. */
  function TaskCount(r: Route, failure: Option<Node>): nat {
    match failure
    case None => 4
    case Some(n) =>
      match n
      case LockPrices => if r == ToUnlock then 3 else 2
      case ValidateSpecs => 4
      case CreateStoreEntry => 5
      case _ => 7
  }

  /** Tasks still to run from node n. */
  function Rank(r: Route, n: Node, fails: Node -> bool): nat {
    match n
    case RevertToDraft => 1
    case UnlockPrices => 2
    case DeleteStoreEntry => 3
    case ConfirmPublication => if fails(n) then 4 else 1
    case CreateStoreEntry => if fails(n) then 3 else if fails(ConfirmPublication) then 5 else 2
    case ValidateSpecs =>
      if fails(n) then 3 else if fails(CreateStoreEntry) then 4 else if fails(ConfirmPublication) then 6 else 3
    case LockPrices => TaskCount(r, FirstFailure(fails))
    case _ => 0
  }

  lemma RankCountsTasks(r: Route, n: Node, fails: Node -> bool)
    ensures IsEnd(n) <==> Rank(r, n, fails) == 0
    ensures !IsEnd(n) ==> Rank(r, Advance(r, n, fails), fails) == Rank(r, n, fails) - 1
    ensures Rank(r, n, fails) <= 7
  {
  }

  lemma {:induction false} WalkCountsDown(r: Route, n: Node, fails: Node -> bool, steps: nat)
    ensures Rank(r, Walk(r, n, fails, steps), fails)
         == if steps < Rank(r, n, fails) then Rank(r, n, fails) - steps else 0
  {
    if steps > 0 {
      WalkCountsDown(r, n, fails, steps - 1);
      RankCountsTasks(r, Walk(r, n, fails, steps - 1), fails);
    }
  }

  /** Failed is entered by compensation alone, so only a run with a failure ends there. */
  lemma {:induction false} WalkEndsAsItMust(r: Route, fails: Node -> bool, steps: nat)
    ensures var n := Walk(r, LockPrices, fails, steps);
            && (n == Succeeded ==> FirstFailure(fails) == None)
            && (n == DeleteStoreEntry || n == UnlockPrices || n == RevertToDraft || n == Failed
               ==> FirstFailure(fails) != None)
            && (n == ValidateSpecs ==> !fails(LockPrices))
            && (n == CreateStoreEntry ==> !fails(LockPrices) && !fails(ValidateSpecs))
            && (n == ConfirmPublication ==> !fails(LockPrices) && !fails(ValidateSpecs) && !fails(CreateStoreEntry))
  {
    if steps > 0 { WalkEndsAsItMust(r, fails, steps - 1); }
  }

  /** Every run executes a fixed number of tasks given by its first failure, seven at most, is not
      finished before, and ends in success exactly when no task fails. */
  lemma EveryRunEnds(r: Route, fails: Node -> bool, steps: nat)
    ensures var count := TaskCount(r, FirstFailure(fails));
            && count <= 7
            && (steps < count ==> !IsEnd(Walk(r, LockPrices, fails, steps)))
            && (steps >= count ==>
                  Walk(r, LockPrices, fails, steps) == if FirstFailure(fails) == None then Succeeded else Failed)
  {
    WalkCountsDown(r, LockPrices, fails, steps);
    RankCountsTasks(r, Walk(r, LockPrices, fails, steps), fails);
    WalkEndsAsItMust(r, fails, steps);
  }

  /** How the handler of a one-call task ends. A guarded task turns a bad reply into its BPMN error; a
      compensating task logs it and completes; an exception of the client library is caught by neither. */
  function Report(n: Node, replyOk: bool, net: Net): Outcome {
    if net.Raises() then Raised
    else if !Guarded(n) || net == Hollow || (net == Delivered && replyOk) then Completed
    else BpmnError
  }
}

/** A saga running alone: it ends after a bounded number of steps, and the price table it leaves is a function
    of the table it found, of what its lock requests took and of what its unlock calls reached. */
module SagaAlone {
  import opened Common
  import opened SagaGraph
  import opened WorldModel
  import opened Ownership
  import P = Pricing
  import PW = PricingWorker
  import O = Offerings
  import S = Specifications
  import St = Store
  import Agreement
  import SagaEndings
  import SagaOutcome
  import SilentSync
  import StoreAgrees
  import Visibility

  /** The actions are all steps of process p, each with a fate its environment allows. */
  ghost predicate Solo(cfg: Config, w: World, acts: seq<Action>, p: Id) {
    acts == []
    || (var front, a := acts[..|acts| - 1], acts[|acts| - 1];
        var mid := RunFrom(cfg, w, front);
        Solo(cfg, w, front, p) && a.Task? && a.proc == p && p in mid.procs && Allowed(cfg, mid.procs[p], a.net))
  }

  /** The call-by-call steps a process can still make, for n prices. */
  function StepsLeft(t: Token, n: nat): nat {
    match t
    case At(m) =>
      (match m
       case LockPrices => 3 * n + 10
       case ValidateSpecs => n + 7
       case CreateStoreEntry => n + 6
       case ConfirmPublication => n + 5
       case DeleteStoreEntry => n + 4
       case UnlockPrices => n + 3
       case RevertToDraft => 1
       case _ => 0)
    case Locking(i) => if i <= n then 3 * n - i + 9 else 0
    case RollingBack(m, j) => if j <= m then m - j + n + 4 else 0
    case Unlocking(j) => if j <= n then n - j + 2 else 0
    case Incident(_) => 0
  }

  /** Process p stands where it can, and the pricing worker is free or at work for it. */
  ghost predicate Ready(cfg: Config, w: World, p: Id) {
    && p in w.procs && TokenFits(cfg, w.procs[p])
    && w.worker == if InHandler(w.procs[p].token) then Some(p) else None
  }

  predicate Ended(t: Token) { t == At(Succeeded) || t == At(Failed) }

  /** One step of p: it stays Ready, and is over or comes nearer to its end. */
  ghost predicate Nearer(cfg: Config, w: World, w': World, p: Id) {
    && Ready(cfg, w, p) && Ready(cfg, w', p)
    && w'.procs[p].priceIds == w.procs[p].priceIds && w'.procs[p].offering == w.procs[p].offering
    && (!cfg.incidents && !w.procs[p].token.Incident? ==> !w'.procs[p].token.Incident?)
    && var n := |w.procs[p].priceIds|;
       if Ended(w.procs[p].token) || w.procs[p].token.Incident? then w' == w
       else StepsLeft(w'.procs[p].token, n) < StepsLeft(w.procs[p].token, n)
  }

  lemma SettledNearer(cfg: Config, proc: Proc, n: Node, out: Outcome)
    requires TokenFits(cfg, proc) && proc.token == At(n) && n != LockPrices && n != UnlockPrices && !IsEnd(n)
    requires out == BpmnError ==> Guarded(n)
    ensures var t := match out
                     case Completed => At(OnComplete(n))
                     case BpmnError => At(OnError(cfg.route, n))
                     case Raised => Incident(n);
            && TokenFits(cfg, proc.(token := t)) && !InHandler(t)
            && StepsLeft(t, |proc.priceIds|) < StepsLeft(proc.token, |proc.priceIds|)
  {
  }

  lemma SettleNearer(cfg: Config, w: World, ran: World, p: Id, n: Node, replyOk: bool, net: Net)
    requires Ready(cfg, w, p) && w.procs[p].token == At(n) && Allowed(cfg, w.procs[p], net)
    requires n != LockPrices && n != UnlockPrices && !IsEnd(n) && ran.procs == w.procs && ran.worker == w.worker
    ensures Nearer(cfg, w, Settle(cfg, w, ran, p, n, replyOk, net), p)
  {
    Agreement.SettleShape(cfg, w, ran, p, n, replyOk, net);
    SettledNearer(cfg, w.procs[p], n, Report(n, replyOk, net));
  }

  lemma QueuedNearer(cfg: Config, w: World, p: Id, n: Node, net: Net, now: int)
    requires Ready(cfg, w, p) && w.procs[p].token == At(n) && Allowed(cfg, w.procs[p], net)
    ensures Nearer(cfg, w, ExecQueued(cfg, w, p, n, net, now), p)
  {
    var proc := w.procs[p];
    var o := proc.offering;
    match n
    case ValidateSpecs => SettleNearer(cfg, w, w, p, n, S.AllFound(w.specs.table, proc.specIds), net);
    case CreateStoreEntry =>
      SettleNearer(cfg, w, w.(docs := St.SyncAll(w.docs, Sources(w), {o}, true)), p, n, true, net);
    case ConfirmPublication =>
      var (db, reply) := O.Serve(w.offerings, O.Confirm(o, now));
      SettleNearer(cfg, w, w.(offerings := db), p, n, reply == O.Ok, net);
    case DeleteStoreEntry => SettleNearer(cfg, w, w.(docs := w.docs - {o}), p, n, true, net);
    case RevertToDraft => SettleNearer(cfg, w, w.(offerings := O.Serve(w.offerings, O.Fail(o)).0), p, n, true, net);
    case _ =>
  }

  lemma LockingNearer(cfg: Config, w: World, p: Id, i: nat, net: Net)
    requires Ready(cfg, w, p) && w.procs[p].token == Locking(i) && Allowed(cfg, w.procs[p], net)
    ensures Nearer(cfg, w, ExecLocking(w, p, i, net), p)
  {
  }

  lemma RollbackNearer(cfg: Config, w: World, p: Id, n: nat, j: nat, net: Net)
    requires Ready(cfg, w, p) && w.procs[p].token == RollingBack(n, j) && Allowed(cfg, w.procs[p], net)
    ensures Nearer(cfg, w, ExecRollback(cfg, w, p, n, j, net), p)
  {
  }

  lemma UnlockingNearer(cfg: Config, w: World, p: Id, j: nat, net: Net)
    requires Ready(cfg, w, p) && w.procs[p].token == Unlocking(j) && Allowed(cfg, w.procs[p], net)
    ensures Nearer(cfg, w, ExecUnlocking(w, p, j, net), p)
  {
  }

  lemma StepNearer(cfg: Config, w: World, p: Id, net: Net, now: int)
    requires Ready(cfg, w, p) && Allowed(cfg, w.procs[p], net)
    ensures Nearer(cfg, w, ExecTask(cfg, w, p, net, now), p)
  {
    match w.procs[p].token
    case At(n) => QueuedNearer(cfg, w, p, n, net, now);
    case Locking(i) => LockingNearer(cfg, w, p, i, net);
    case RollingBack(n, j) => RollbackNearer(cfg, w, p, n, j, net);
    case Unlocking(j) => UnlockingNearer(cfg, w, p, j, net);
    case Incident(_) =>
  }

  /** Alone, a saga of n prices has ended, or stopped at an incident, after 3n + 10 steps. */
  lemma {:induction false} SoloEnds(cfg: Config, w: World, acts: seq<Action>, p: Id)
    requires Ready(cfg, w, p) && Solo(cfg, w, acts, p)
    ensures var w' := RunFrom(cfg, w, acts);
            var n := |w.procs[p].priceIds|;
            && Ready(cfg, w', p) && w'.procs[p].priceIds == w.procs[p].priceIds
               && w'.procs[p].offering == w.procs[p].offering
            && (!cfg.incidents && !w.procs[p].token.Incident? ==> !w'.procs[p].token.Incident?)
            && (Ended(w'.procs[p].token) || w'.procs[p].token.Incident?
                || StepsLeft(w'.procs[p].token, n) + |acts| <= StepsLeft(w.procs[p].token, n))
  {
    if acts != [] {
      var front, a := acts[..|acts| - 1], acts[|acts| - 1];
      SoloEnds(cfg, w, front, p);
      StepNearer(cfg, RunFrom(cfg, w, front), p, a.net, a.now);
    }
  }

  // ---- what the calls of a run reach -----------------------------------------------------------------

  /** The prices whose lock request ran and was not turned down, and the prices an unlock call reached. */
  datatype Reach = Reach(took: set<Id>, freed: set<Id>)

  ghost function Reached(cfg: Config, w: World, r: Reach, a: Action): Reach {
    if !a.Task? || a.proc !in w.procs || !Allowed(cfg, w.procs[a.proc], a.net) || !a.net.Ran() then r
    else
      var ids := w.procs[a.proc].priceIds;
      match w.procs[a.proc].token
      case Locking(i) =>
        if i < |ids| && PW.Lockable(w.prices.table, ids[i], a.proc) then r.(took := r.took + {ids[i]}) else r
      case _ =>
        var x := Freed(cfg, w, a);
        if x.Some? then r.(freed := r.freed + {x.value}) else r
  }

  ghost function Touched(cfg: Config, w: World, acts: seq<Action>): Reach {
    if acts == [] then Reach({}, {})
    else
      var front := acts[..|acts| - 1];
      Reached(cfg, RunFrom(cfg, w, front), Touched(cfg, w, front), acts[|acts| - 1])
  }

  /** Every unlock call of the run reached its price, and no lock reply was lost. */
  ghost predicate Answered(cfg: Config, w: World, acts: seq<Action>, p: Id) {
    acts == []
    || (var front, a := acts[..|acts| - 1], acts[|acts| - 1];
        var mid := RunFrom(cfg, w, front);
        Answered(cfg, w, front, p) && (a.Task? && p in mid.procs ==> AnsweredCall(mid.procs[p].token, a.net)))
  }

  predicate AnsweredCall(t: Token, net: Net) {
    (t.Locking? ==> net != ReplyLost) && (t.RollingBack? || t.Unlocking? ==> net.Ran())
  }

  /** What a saga has taken and freed, given where it stands. */
  ghost predicate ReachFits(cfg: Config, proc: Proc, r: Reach) {
    var ids := proc.priceIds;
    && r.took <= Elems(ids) && r.freed <= Elems(ids) && (cfg.route == ToRevert ==> r.freed <= r.took)
    && (proc.locked ==> r.took == Elems(ids))
    && match proc.token
       case At(n) => (n == LockPrices ==> r == Reach({}, {})) && (PastLock(n) ==> r.freed == {})
       case Locking(i) => r == Reach(First(ids, i), {})
       case RollingBack(n, j) => First(ids, n) <= r.took && r.freed <= First(ids, n)
       case _ => true
  }

  /** The same while every call is answered. */
  ghost predicate AnsweredFits(cfg: Config, proc: Proc, r: Reach) {
    var ids := proc.priceIds;
    match proc.token
    case At(n) =>
      && (n == UnlockPrices ==> proc.locked || r.took <= r.freed)
      && (n == RevertToDraft || n == Failed ==>
            r.took <= r.freed && (cfg.route == ToUnlock || proc.locked ==> Elems(ids) <= r.freed))
    case RollingBack(n, j) => r.took == First(ids, n) && First(ids, j) <= r.freed
    case Unlocking(j) => First(ids, j) <= r.freed
    case _ => true
  }

  ghost predicate Free(t: P.Table, x: Id) { x in t && t[x].lockedBy == None && !t[x].locked }

  /** The price table, as a function of the table at the start and of what was taken and freed since. */
  ghost predicate TableFits(start: P.Table, t: P.Table, r: Reach, p: Id) {
    && (forall x :: x in r.took ==> Free(start, x))
    && t == PW.UnlockAll(PW.LockAll(start, r.took, p), r.freed)
  }

  lemma OneMoreLocked(start: P.Table, took: set<Id>, x: Id, p: Id)
    ensures PW.LockAll(PW.UnlockAll(PW.LockAll(start, took, p), {}), {x}, p)
         == PW.UnlockAll(PW.LockAll(start, took + {x}, p), {})
  {
  }

  /** A lock call succeeds only on a price that was free at the start. */
  lemma LockedWasFree(start: P.Table, took: set<Id>, x: Id, p: Id)
    requires P.Sound(start) && PW.HoldsNothing(start, p) && forall y :: y in took ==> Free(start, y)
    requires PW.Lockable(PW.UnlockAll(PW.LockAll(start, took, p), {}), x, p)
    ensures Free(start, x)
  {
  }

  // ---- one step --------------------------------------------------------------------------------------

  /** Reach r explains where process p stands and what the price table is. */
  ghost predicate Explained(cfg: Config, start: P.Table, w: World, r: Reach, p: Id) {
    p in w.procs && ReachFits(cfg, w.procs[p], r) && TableFits(start, w.prices.table, r, p)
  }

  lemma LockingReaches(cfg: Config, start: P.Table, w: World, r: Reach, p: Id, i: nat, net: Net, now: int)
    requires P.Sound(start) && PW.HoldsNothing(start, p) && P.Sound(w.prices.table) && Ready(cfg, w, p)
    requires w.procs[p].token == Locking(i) && Allowed(cfg, w.procs[p], net) && Explained(cfg, start, w, r, p)
    ensures Explained(cfg, start, ExecLocking(w, p, i, net), Reached(cfg, w, r, Task(p, net, now)), p)
  {
    var proc, w' := w.procs[p], ExecLocking(w, p, i, net);
    FirstNext(proc.priceIds, i);
    if i < |proc.priceIds| {
      var x := proc.priceIds[i];
      PW.LockCallEffect(w.prices, x, p, net);
      if net.Ran() && PW.Lockable(w.prices.table, x, p) {
        LockedWasFree(start, r.took, x, p);
        OneMoreLocked(start, r.took, x, p);
      }
    }
  }

  lemma LockingAnswered(cfg: Config, w: World, r: Reach, p: Id, i: nat, net: Net, now: int)
    requires P.Sound(w.prices.table) && Ready(cfg, w, p) && w.procs[p].token == Locking(i) && net != ReplyLost
    requires Allowed(cfg, w.procs[p], net) && ReachFits(cfg, w.procs[p], r)
    ensures AnsweredFits(cfg, ExecLocking(w, p, i, net).procs[p], Reached(cfg, w, r, Task(p, net, now)))
  {
    assert First(w.procs[p].priceIds, 0) == {};
    if i < |w.procs[p].priceIds| { PW.LockCallEffect(w.prices, w.procs[p].priceIds[i], p, net); }
  }

  lemma RollbackReaches(cfg: Config, start: P.Table, w: World, r: Reach, p: Id, n: nat, j: nat, net: Net, now: int)
    requires P.Sound(w.prices.table) && Ready(cfg, w, p) && w.procs[p].token == RollingBack(n, j)
    requires Allowed(cfg, w.procs[p], net) && Explained(cfg, start, w, r, p)
    ensures Explained(cfg, start, ExecRollback(cfg, w, p, n, j, net), Reached(cfg, w, r, Task(p, net, now)), p)
  {
    var ids := w.procs[p].priceIds;
    FirstNext(ids, j);
    if j < n {
      assert ids[j] in First(ids, n);
      PW.UnlockCallEffect(w.prices, ids[j], net);
      PW.UnlockMore(PW.LockAll(start, r.took, p), r.freed, if net.Ran() then {ids[j]} else {});
    }
  }

  lemma RollbackAnswered(cfg: Config, w: World, r: Reach, p: Id, n: nat, j: nat, net: Net, now: int)
    requires Ready(cfg, w, p) && w.procs[p].token == RollingBack(n, j) && net.Ran()
    requires Allowed(cfg, w.procs[p], net) && AnsweredFits(cfg, w.procs[p], r)
    ensures AnsweredFits(cfg, ExecRollback(cfg, w, p, n, j, net).procs[p], Reached(cfg, w, r, Task(p, net, now)))
  {
    FirstNext(w.procs[p].priceIds, j);
  }

  lemma UnlockingReaches(cfg: Config, start: P.Table, w: World, r: Reach, p: Id, j: nat, net: Net, now: int)
    requires P.Sound(w.prices.table) && Ready(cfg, w, p) && w.procs[p].token == Unlocking(j)
    requires Allowed(cfg, w.procs[p], net) && Explained(cfg, start, w, r, p)
    ensures Explained(cfg, start, ExecUnlocking(w, p, j, net), Reached(cfg, w, r, Task(p, net, now)), p)
  {
    var ids := w.procs[p].priceIds;
    FirstNext(ids, j);
    if j < |ids| {
      assert ids[j] in Elems(ids);
      PW.UnlockCallEffect(w.prices, ids[j], net);
      PW.UnlockMore(PW.LockAll(start, r.took, p), r.freed, if net.Ran() then {ids[j]} else {});
    }
  }

  lemma UnlockingAnswered(cfg: Config, w: World, r: Reach, p: Id, j: nat, net: Net, now: int)
    requires Ready(cfg, w, p) && w.procs[p].token == Unlocking(j) && net.Ran()
    requires Allowed(cfg, w.procs[p], net) && ReachFits(cfg, w.procs[p], r) && AnsweredFits(cfg, w.procs[p], r)
    ensures AnsweredFits(cfg, ExecUnlocking(w, p, j, net).procs[p], Reached(cfg, w, r, Task(p, net, now)))
  {
    FirstNext(w.procs[p].priceIds, j);
  }

  /** The tasks that make no call on a price. */
  lemma FollowedReaches(cfg: Config, proc: Proc, n: Node, t: Token, r: Reach)
    requires TokenFits(cfg, proc) && proc.token == At(n) && Agreement.Follows(cfg, n, t)
    requires ReachFits(cfg, proc, r)
    ensures ReachFits(cfg, proc.(token := t), r)
    ensures AnsweredFits(cfg, proc, r) ==> AnsweredFits(cfg, proc.(token := t), r)
  {
    assert First(proc.priceIds, 0) == {};
  }

  lemma QueuedReaches(cfg: Config, start: P.Table, w: World, r: Reach, p: Id, n: Node, net: Net, now: int)
    requires Ready(cfg, w, p) && w.procs[p].token == At(n) && Allowed(cfg, w.procs[p], net)
    requires Explained(cfg, start, w, r, p)
    ensures var w' := ExecQueued(cfg, w, p, n, net, now);
            Explained(cfg, start, w', r, p) && (AnsweredFits(cfg, w.procs[p], r) ==> AnsweredFits(cfg, w'.procs[p], r))
  {
    Agreement.QueuedFollows(cfg, w, p, n, net, now);
    FollowedReaches(cfg, w.procs[p], n, ExecQueued(cfg, w, p, n, net, now).procs[p].token, r);
  }

  lemma StepReaches(cfg: Config, start: P.Table, w: World, r: Reach, p: Id, net: Net, now: int)
    requires P.Sound(start) && PW.HoldsNothing(start, p) && P.Sound(w.prices.table)
    requires Ready(cfg, w, p) && Allowed(cfg, w.procs[p], net) && Explained(cfg, start, w, r, p)
    ensures var w', r' := ExecTask(cfg, w, p, net, now), Reached(cfg, w, r, Task(p, net, now));
            && Explained(cfg, start, w', r', p)
            && (AnsweredFits(cfg, w.procs[p], r) && AnsweredCall(w.procs[p].token, net)
                ==> AnsweredFits(cfg, w'.procs[p], r'))
  {
    match w.procs[p].token
    case At(n) => QueuedReaches(cfg, start, w, r, p, n, net, now);
    case Locking(i) =>
      LockingReaches(cfg, start, w, r, p, i, net, now);
      if net != ReplyLost { LockingAnswered(cfg, w, r, p, i, net, now); }
    case RollingBack(n, j) =>
      RollbackReaches(cfg, start, w, r, p, n, j, net, now);
      if net.Ran() && AnsweredFits(cfg, w.procs[p], r) { RollbackAnswered(cfg, w, r, p, n, j, net, now); }
    case Unlocking(j) =>
      UnlockingReaches(cfg, start, w, r, p, j, net, now);
      if net.Ran() && AnsweredFits(cfg, w.procs[p], r) { UnlockingAnswered(cfg, w, r, p, j, net, now); }
    case Incident(_) =>
  }

  // ---- the start -----------------------------------------------------------------------------------

  /** Every lock names a process that has left its first task. */
  ghost predicate StartsEmpty(w: World) {
    forall x :: x in w.prices.table && w.prices.table[x].lockedBy.Some? ==>
      PastStart(w, w.prices.table[x].lockedBy.value)
  }

  ghost predicate PastStart(w: World, q: Id) { q in w.procs && w.procs[q].token != At(LockPrices) }

  /** No step brings a process back to its first task, and the step that leaves it locks nothing. */
  lemma TaskLeavesStart(cfg: Config, w: World, p: Id, net: Net, now: int)
    requires p in w.procs
    ensures var w' := ExecTask(cfg, w, p, net, now);
            && p in w'.procs && w'.procs == w.procs[p := w'.procs[p]]
            && (w'.procs[p].token == At(LockPrices) ==> w'.procs[p] == w.procs[p])
            && (w.procs[p].token == At(LockPrices) ==> w'.prices == w.prices)
  {
    SagaOutcome.TaskMovesOn(cfg, w, p, net, now);
    if w.procs[p].token == At(LockPrices) { Agreement.QueuedFollows(cfg, w, p, LockPrices, net, now); }
  }

  lemma TaskStartsEmpty(cfg: Config, w: World, p: Id, net: Net, now: int)
    requires Fits(cfg, w) && StartsEmpty(w) && p in w.procs && Allowed(cfg, w.procs[p], net)
    ensures StartsEmpty(ExecTask(cfg, w, p, net, now))
  {
    var w' := ExecTask(cfg, w, p, net, now);
    TaskLeavesStart(cfg, w, p, net, now);
    TaskSteps(cfg, w, p, net, now);
    forall x | x in w'.prices.table && w'.prices.table[x].lockedBy.Some?
      ensures PastStart(w', w'.prices.table[x].lockedBy.value)
    {
      if w'.prices.table[x] == w.prices.table[x] { assert PastStart(w, w.prices.table[x].lockedBy.value); }
    }
  }

  lemma ExecStartsEmpty(cfg: Config, w: World, a: Action)
    requires Fits(cfg, w) && StartsEmpty(w)
    ensures StartsEmpty(Exec(cfg, w, a))
  {
    var w' := Exec(cfg, w, a);
    match a
    case Task(p, net, now) => if p in w.procs && Allowed(cfg, w.procs[p], net) { TaskStartsEmpty(cfg, w, p, net, now); }
    case PriceAdmin(call) => SagaOutcome.AdminLocksNothing(cfg, w, call); NothingNewLocked(w, w');
    case _ => SagaOutcome.OthersLockNothing(cfg, w, a); NothingNewLocked(w, w');
  }

  lemma NothingNewLocked(w: World, w': World)
    requires StartsEmpty(w) && forall q :: q in w.procs ==> q in w'.procs && w'.procs[q] == w.procs[q]
    requires forall x :: x in w'.prices.table && w'.prices.table[x].lockedBy.Some? ==>
               x in w.prices.table && w.prices.table[x].lockedBy == w'.prices.table[x].lockedBy
    ensures StartsEmpty(w')
  {
    forall x | x in w'.prices.table && w'.prices.table[x].lockedBy.Some?
      ensures PastStart(w', w'.prices.table[x].lockedBy.value)
    {
      assert PastStart(w, w.prices.table[x].lockedBy.value);
    }
  }

  lemma {:induction false} RunStartsEmpty(cfg: Config, acts: seq<Action>)
    ensures StartsEmpty(Run(cfg, acts)) && Fits(cfg, Run(cfg, acts))
  {
    RunFits(cfg, acts);
    if acts != [] {
      RunStartsEmpty(cfg, acts[..|acts| - 1]);
      ExecStartsEmpty(cfg, Run(cfg, acts[..|acts| - 1]), acts[|acts| - 1]);
    }
  }

  lemma NothingHeldAtStart(cfg: Config, acts: seq<Action>, p: Id)
    requires p in Run(cfg, acts).procs && Run(cfg, acts).procs[p].token == At(LockPrices)
    ensures PW.HoldsNothing(Run(cfg, acts).prices.table, p) && !Run(cfg, acts).procs[p].locked
  {
    var w := Run(cfg, acts);
    RunStartsEmpty(cfg, acts);
    assert TokenFits(cfg, w.procs[p]);
    forall x | x in w.prices.table ensures w.prices.table[x].lockedBy != Some(p) { assert !PastStart(w, p); }
  }

  // ---- the whole run ---------------------------------------------------------------------------------

  /** Wherever it stands: p is Ready, and the table is what its calls have made of it. */
  lemma {:induction false} SoloReaches(cfg: Config, w: World, more: seq<Action>, p: Id)
    requires Ready(cfg, w, p) && Solo(cfg, w, more, p) && w.procs[p].token == At(LockPrices)
    requires P.Sound(w.prices.table) && PW.HoldsNothing(w.prices.table, p) && !w.procs[p].locked
    ensures var w', r := RunFrom(cfg, w, more), Touched(cfg, w, more);
            && Ready(cfg, w', p) && P.Sound(w'.prices.table) && Explained(cfg, w.prices.table, w', r, p)
            && (Answered(cfg, w, more, p) ==> AnsweredFits(cfg, w'.procs[p], r))
  {
    if more == [] {
      NothingTaken(w.prices.table, p);
    } else {
      var front, a := more[..|more| - 1], more[|more| - 1];
      var mid := RunFrom(cfg, w, front);
      SoloReaches(cfg, w, front, p);
      StepNearer(cfg, mid, p, a.net, a.now);
      StoreAgrees.TaskKeepsPricesSound(cfg, mid, p, a.net, a.now);
      StepReaches(cfg, w.prices.table, mid, Touched(cfg, w, front), p, a.net, a.now);
    }
  }

  lemma NothingTaken(t: P.Table, p: Id)
    ensures PW.UnlockAll(PW.LockAll(t, {}, p), {}) == t
  {
  }

  // ---- offering and document ---------------------------------------------------------------------------

  /** The revert call of the run was answered with an error status. */
  ghost predicate RevertRefused(cfg: Config, w: World, acts: seq<Action>, p: Id) {
    acts != []
    && (var front, a := acts[..|acts| - 1], acts[|acts| - 1];
        var mid := RunFrom(cfg, w, front);
        RevertRefused(cfg, w, front, p) || RefusesRevert(mid, a, p))
  }

  /** At the end, offering and document are as the end event says. */
  ghost predicate EndsWell(cfg: Config, acts: seq<Action>, p: Id, refused: bool) {
    var w := Run(cfg, acts);
    p in w.procs && Ended(w.procs[p].token) ==>
      var o := w.procs[p].offering;
      && o in w.offerings.table
      && if w.procs[p].token == At(Succeeded) then
           && w.offerings.table[o].status == O.PUBLISHED
           && (Visibility.NoLostDelete(cfg, acts) ==> (o in w.docs <==> p in SilentSync.Record(cfg, acts).stored))
         else
           && w.offerings.table[o].status == (if refused then O.PUBLISHING else O.DRAFT)
           && (Visibility.NoLostDelete(cfg, acts) ==> o !in w.docs)
  }

  lemma EndedStaysWell(cfg: Config, acts: seq<Action>, a: Action, p: Id, refused: bool)
    requires Ready(cfg, Run(cfg, acts), p) && EndsWell(cfg, acts, p, refused) && Ended(Run(cfg, acts).procs[p].token)
    requires a.Task? && a.proc == p && Allowed(cfg, Run(cfg, acts).procs[p], a.net)
    ensures Run(cfg, acts + [a]) == Run(cfg, acts) && EndsWell(cfg, acts + [a], p, refused)
  {
    assert (acts + [a])[..|acts + [a]| - 1] == acts;
    StepNearer(cfg, Run(cfg, acts), p, a.net, a.now);
    assert SilentSync.Record(cfg, acts + [a]) == SilentSync.Record(cfg, acts);
  }

  lemma SucceedsWell(cfg: Config, acts: seq<Action>, a: Action, p: Id, refused: bool)
    requires p in Run(cfg, acts).procs && !IsEnd(SagaOutcome.TaskOf(Run(cfg, acts).procs[p].token))
    requires a.Task? && a.proc == p
    requires var w' := Run(cfg, acts + [a]); p in w'.procs && w'.procs[p].token == At(Succeeded)
    ensures EndsWell(cfg, acts + [a], p, refused)
  {
    assert (acts + [a])[..|acts + [a]| - 1] == acts;
    SagaEndings.SucceededSagaLeavesAll(cfg, acts, a, p);
    SagaOutcome.TaskMovesOn(cfg, Run(cfg, acts), p, a.net, a.now);
    assert SilentSync.Record(cfg, acts + [a]) == SilentSync.Record(cfg, acts);
  }

  lemma FailsWell(cfg: Config, acts: seq<Action>, a: Action, p: Id)
    requires p in Run(cfg, acts).procs && !IsEnd(SagaOutcome.TaskOf(Run(cfg, acts).procs[p].token)) && a.Task?
    requires var w' := Run(cfg, acts + [a]); p in w'.procs && w'.procs[p].token == At(Failed)
    ensures EndsWell(cfg, acts + [a], p, a.net == Refused)
  {
    assert (acts + [a])[..|acts + [a]| - 1] == acts;
    SagaOutcome.FailedSagaLeavesNothing(cfg, acts, a, p);
  }

  /** The step turns the revert call down. */
  ghost predicate RefusesRevert(w: World, a: Action, p: Id) {
    p in w.procs && w.procs[p].token == At(RevertToDraft) && a.Task? && a.net == Refused
  }

  lemma StepEndsWell(cfg: Config, acts: seq<Action>, a: Action, p: Id, refused: bool)
    requires Ready(cfg, Run(cfg, acts), p) && EndsWell(cfg, acts, p, refused)
    requires refused ==> Run(cfg, acts).procs[p].token == At(Failed)
    requires a.Task? && a.proc == p && Allowed(cfg, Run(cfg, acts).procs[p], a.net)
    ensures var refused', w' := refused || RefusesRevert(Run(cfg, acts), a, p), Run(cfg, acts + [a]);
            && Ready(cfg, w', p) && EndsWell(cfg, acts + [a], p, refused')
            && (refused' ==> w'.procs[p].token == At(Failed))
  {
    var w, w' := Run(cfg, acts), Exec(cfg, Run(cfg, acts), a);
    RunNext(cfg, acts, a);
    StepNearer(cfg, w, p, a.net, a.now);
    if RefusesRevert(w, a, p) { RefusedRevertFails(cfg, w, p, a.net, a.now); }
    if Ended(w.procs[p].token) {
      EndedStaysWell(cfg, acts, a, p, refused);
    } else if w'.procs[p].token == At(Succeeded) {
      SucceedsWell(cfg, acts, a, p, refused || RefusesRevert(w, a, p));
    } else if w'.procs[p].token == At(Failed) {
      SagaOutcome.TaskMovesOn(cfg, w, p, a.net, a.now);
      FailsWell(cfg, acts, a, p);
    }
  }

  lemma RunNext(cfg: Config, acts: seq<Action>, a: Action)
    ensures Run(cfg, acts + [a]) == Exec(cfg, Run(cfg, acts), a)
  {
    assert (acts + [a])[..|acts + [a]| - 1] == acts;
  }

  lemma RefusedRevertFails(cfg: Config, w: World, p: Id, net: Net, now: int)
    requires p in w.procs && w.procs[p].token == At(RevertToDraft) && Allowed(cfg, w.procs[p], net) && net == Refused
    ensures ExecTask(cfg, w, p, net, now).procs[p].token == At(Failed)
  {
  }

  lemma SoloLast(cfg: Config, w: World, more: seq<Action>, p: Id)
    requires Solo(cfg, w, more, p) && more != []
    ensures var front, a := more[..|more| - 1], more[|more| - 1];
            var mid := RunFrom(cfg, w, front);
            && Solo(cfg, w, front, p) && a.Task? && a.proc == p && p in mid.procs && Allowed(cfg, mid.procs[p], a.net)
            && (RevertRefused(cfg, w, more, p) <==> RevertRefused(cfg, w, front, p) || RefusesRevert(mid, a, p))
  {
  }

  /** After some of its steps: p is Ready, and if it has ended it has ended well. */
  ghost predicate WellSoFar(cfg: Config, later: seq<Action>, p: Id, refused: bool) {
    && Ready(cfg, Run(cfg, later), p) && EndsWell(cfg, later, p, refused)
    && (refused ==> Run(cfg, later).procs[p].token == At(Failed))
  }

  lemma JoinedLast(acts: seq<Action>, more: seq<Action>)
    requires more != []
    ensures acts + more == (acts + more[..|more| - 1]) + [more[|more| - 1]]
  {
  }

  /** One more step of p. */
  lemma WellNext(cfg: Config, acts: seq<Action>, front: seq<Action>, a: Action, p: Id, refused: bool, refused': bool)
    requires WellSoFar(cfg, acts + front, p, refused)
    requires a.Task? && a.proc == p && Allowed(cfg, Run(cfg, acts + front).procs[p], a.net)
    requires refused' <==> refused || RefusesRevert(Run(cfg, acts + front), a, p)
    ensures WellSoFar(cfg, (acts + front) + [a], p, refused')
  {
    StepEndsWell(cfg, acts + front, a, p, refused);
  }

  lemma {:induction false} SoloEndsWell(cfg: Config, acts: seq<Action>, more: seq<Action>, p: Id)
    requires Ready(cfg, Run(cfg, acts), p) && Solo(cfg, Run(cfg, acts), more, p)
    requires Run(cfg, acts).procs[p].token == At(LockPrices)
    ensures WellSoFar(cfg, acts + more, p, RevertRefused(cfg, Run(cfg, acts), more, p))
  {
    if more == [] {
      assert acts + more == acts;
    } else {
      var w, front, a := Run(cfg, acts), more[..|more| - 1], more[|more| - 1];
      SoloLast(cfg, w, more, p);
      SoloEndsWell(cfg, acts, front, p);
      RunSplits(cfg, INIT, acts, front);
      JoinedLast(acts, more);
      WellNext(cfg, acts, front, a, p, RevertRefused(cfg, w, front, p), RevertRefused(cfg, w, more, p));
    }
  }

  // ---- the outcome -------------------------------------------------------------------------------------

  /** The price table once the saga has ended. */
  ghost predicate EndTable(t: P.Table, t': P.Table, ids: seq<Id>, r: Reach, end: Token, p: Id) {
    if end == At(Succeeded) then t' == PW.LockAll(t, Elems(ids), p) && forall x :: x in ids ==> Free(t, x)
    else
      && t' == PW.UnlockAll(PW.LockAll(t, r.took, p), r.freed)
      && (t' == t <==> r.took <= r.freed && !SomeoneElses(t, r.freed))
  }

  /** Some of the prices is locked. */
  ghost predicate SomeoneElses(t: P.Table, xs: set<Id>) { exists x :: x in xs && x in t && t[x].locked }

  lemma NothingFreed(t: P.Table, xs: set<Id>, p: Id)
    ensures PW.UnlockAll(PW.LockAll(t, xs, p), {}) == PW.LockAll(t, xs, p)
  {
  }

  /** Locking free prices and unlocking some afterwards changes nothing, exactly when all that was locked was
      unlocked and nothing else was. */
  lemma RestoredTable(t: P.Table, r: Reach, p: Id)
    requires P.Sound(t) && forall x :: x in r.took ==> Free(t, x)
    ensures PW.UnlockAll(PW.LockAll(t, r.took, p), r.freed) == t <==> r.took <= r.freed && !SomeoneElses(t, r.freed)
  {
    var t' := PW.UnlockAll(PW.LockAll(t, r.took, p), r.freed);
    if SomeoneElses(t, r.freed) {
      var x :| x in r.freed && x in t && t[x].locked;
      assert !t'[x].locked;
    } else if r.took <= r.freed {
      forall x | x in t ensures t'[x] == t[x] { assert x in r.freed ==> !t[x].locked; }
    } else {
      var x :| x in r.took && x !in r.freed;
      assert t'[x].locked && !t[x].locked;
    }
  }

  /** A saga started anywhere in any run and then left alone, whatever its calls meet, has ended or stopped at
      an incident after at most 3n + 10 steps. If it succeeds its offering is PUBLISHED, and the price table is
      what it was but for the locks the saga has on its whole list, every one of which was free. If it fails its
      offering is a DRAFT, unless the revert call was refused, and the price table is exactly what it was if and
      only if every price its lock requests took was reached by an unlock call and no price that an unlock call
      reached was locked at the start; with the error flow of Lock Prices routed to Revert it unlocks only what
      it took. Where no deletion was lost there is a document exactly after a success whose sync worked. */
  lemma AloneSagaOutcome(cfg: Config, acts: seq<Action>, more: seq<Action>, p: Id)
    requires Run(cfg, acts).worker == None
    requires p in Run(cfg, acts).procs && Run(cfg, acts).procs[p].token == At(LockPrices)
    requires Solo(cfg, Run(cfg, acts), more, p) && |more| >= 3 * |Run(cfg, acts).procs[p].priceIds| + 10
    ensures var w, w' := Run(cfg, acts), Run(cfg, acts + more);
            var r := Touched(cfg, w, more);
            && p in w'.procs && (Ended(w'.procs[p].token) || (cfg.incidents && w'.procs[p].token.Incident?))
            && EndsWell(cfg, acts + more, p, RevertRefused(cfg, w, more, p))
            && (Ended(w'.procs[p].token) ==>
                  EndTable(w.prices.table, w'.prices.table, w.procs[p].priceIds, r, w'.procs[p].token, p))
            && (cfg.route == ToRevert ==> r.freed <= r.took && !SomeoneElses(w.prices.table, r.freed))
  {
    StartIsReady(cfg, acts, p);
    RunSplits(cfg, INIT, acts, more);
    SoloEnds(cfg, Run(cfg, acts), more, p);
    EndTableFits(cfg, Run(cfg, acts), more, p);
    SoloEndsWell(cfg, acts, more, p);
  }

  /** p is about to begin: the pricing worker is free, and nothing is locked for p. */
  ghost predicate Starting(cfg: Config, w: World, p: Id) {
    && Ready(cfg, w, p) && w.procs[p].token == At(LockPrices)
    && P.Sound(w.prices.table) && PW.HoldsNothing(w.prices.table, p) && !w.procs[p].locked
  }

  lemma EndTableFits(cfg: Config, w: World, more: seq<Action>, p: Id)
    requires Starting(cfg, w, p) && Solo(cfg, w, more, p)
    ensures var w', r := RunFrom(cfg, w, more), Touched(cfg, w, more);
            && p in w'.procs
            && (Ended(w'.procs[p].token) ==>
                  EndTable(w.prices.table, w'.prices.table, w.procs[p].priceIds, r, w'.procs[p].token, p))
            && (cfg.route == ToRevert ==> r.freed <= r.took && !SomeoneElses(w.prices.table, r.freed))
  {
    var t, w', r := w.prices.table, RunFrom(cfg, w, more), Touched(cfg, w, more);
    SoloEnds(cfg, w, more, p);
    SoloReaches(cfg, w, more, p);
    RestoredTable(t, r, p);
    if w'.procs[p].token == At(Succeeded) {
      NothingFreed(t, Elems(w.procs[p].priceIds), p);
      forall x | x in w.procs[p].priceIds ensures Free(t, x) { assert x in r.took; }
    }
  }

  lemma StartIsReady(cfg: Config, acts: seq<Action>, p: Id)
    requires p in Run(cfg, acts).procs && Run(cfg, acts).procs[p].token == At(LockPrices)
    requires Run(cfg, acts).worker == None
    ensures Starting(cfg, Run(cfg, acts), p)
  {
    NothingHeldAtStart(cfg, acts, p);
    RunFits(cfg, acts);
  }

  /** So where every unlock call ran and no lock reply was lost, a failed saga leaves the price table exactly as
      it was if and only if the error flow of Lock Prices leads to Revert or none of its prices was locked at the
      start. */
  lemma AnsweredSagaRestoresPrices(cfg: Config, acts: seq<Action>, more: seq<Action>, p: Id)
    requires Run(cfg, acts).worker == None
    requires p in Run(cfg, acts).procs && Run(cfg, acts).procs[p].token == At(LockPrices)
    requires Solo(cfg, Run(cfg, acts), more, p) && Answered(cfg, Run(cfg, acts), more, p)
    requires p in Run(cfg, acts + more).procs && Run(cfg, acts + more).procs[p].token == At(Failed)
    ensures var t, t', ids := Run(cfg, acts).prices.table, Run(cfg, acts + more).prices.table,
                              Run(cfg, acts).procs[p].priceIds;
            && t' == (if cfg.route == ToRevert then t else PW.UnlockAll(t, Elems(ids)))
            && (t' == t <==> cfg.route == ToRevert || !SomeoneElses(t, Elems(ids)))
  {
    StartIsReady(cfg, acts, p);
    RunSplits(cfg, INIT, acts, more);
    AnsweredTable(cfg, Run(cfg, acts), more, p);
  }

  /** It has given back what it took; under the declared flow it has unlocked its whole list besides. */
  lemma AnsweredReach(cfg: Config, w: World, more: seq<Action>, p: Id)
    requires Starting(cfg, w, p) && Solo(cfg, w, more, p) && Answered(cfg, w, more, p)
    requires var w' := RunFrom(cfg, w, more); p in w'.procs && w'.procs[p].token == At(Failed)
    ensures var r := Touched(cfg, w, more);
            && TableFits(w.prices.table, RunFrom(cfg, w, more).prices.table, r, p) && r.took <= r.freed
            && if cfg.route == ToRevert then r.freed <= r.took else r.freed == Elems(w.procs[p].priceIds)
  {
    SoloEnds(cfg, w, more, p);
    SoloReaches(cfg, w, more, p);
  }

  lemma AnsweredTable(cfg: Config, w: World, more: seq<Action>, p: Id)
    requires Starting(cfg, w, p) && Solo(cfg, w, more, p) && Answered(cfg, w, more, p)
    requires var w' := RunFrom(cfg, w, more); p in w'.procs && w'.procs[p].token == At(Failed)
    ensures var t, t', ids := w.prices.table, RunFrom(cfg, w, more).prices.table, w.procs[p].priceIds;
            && t' == (if cfg.route == ToRevert then t else PW.UnlockAll(t, Elems(ids)))
            && (t' == t <==> cfg.route == ToRevert || !SomeoneElses(t, Elems(ids)))
  {
    var r := Touched(cfg, w, more);
    AnsweredReach(cfg, w, more, p);
    RestoredTable(w.prices.table, r, p);
    AllFreed(w.prices.table, r, p);
  }

  lemma AllFreed(t: P.Table, r: Reach, p: Id)
    requires r.took <= r.freed
    ensures PW.UnlockAll(PW.LockAll(t, r.took, p), r.freed) == PW.UnlockAll(t, r.freed)
  {
  }

  lemma {:induction false} OthersStandStill(cfg: Config, w: World, acts: seq<Action>, p: Id, q: Id)
    requires Ready(cfg, w, q) && Solo(cfg, w, acts, q) && p in w.procs && p != q
    ensures p in RunFrom(cfg, w, acts).procs && RunFrom(cfg, w, acts).procs[p] == w.procs[p]
  {
    if acts != [] {
      var front, a := acts[..|acts| - 1], acts[|acts| - 1];
      OthersStandStill(cfg, w, front, p, q);
      SoloEnds(cfg, w, front, q);
      TaskLeavesStart(cfg, RunFrom(cfg, w, front), q, a.net, a.now);
    }
  }

  /** With the declared flow a shared price is taken from its holder: whenever saga q starts while saga p
      has price x of q's list locked, q alone runs to its failure with p standing where it stood, and x is
      unlocked exactly if one of q's unlock calls reached it, as one did if every call was answered. */
  lemma SharedPriceIsTakenAway(cfg: Config, acts: seq<Action>, more: seq<Action>, p: Id, q: Id, x: Id)
    requires cfg.route == ToUnlock && Run(cfg, acts).worker == None && p != q
    requires q in Run(cfg, acts).procs && Run(cfg, acts).procs[q].token == At(LockPrices)
    requires Solo(cfg, Run(cfg, acts), more, q) && |more| >= 3 * |Run(cfg, acts).procs[q].priceIds| + 10
    requires p in Run(cfg, acts).procs && x in Run(cfg, acts).procs[q].priceIds
    requires var t := Run(cfg, acts).prices.table; x in t && t[x].lockedBy == Some(p)
    ensures var w, w' := Run(cfg, acts), Run(cfg, acts + more);
            && q in w'.procs && p in w'.procs && w'.procs[p] == w.procs[p] && x in w'.prices.table
            && (w'.procs[q].token == At(Failed) || (cfg.incidents && w'.procs[q].token.Incident?))
            && (!w'.prices.table[x].locked <==> x in Touched(cfg, w, more).freed)
            && (w'.procs[q].token == At(Failed) && Answered(cfg, w, more, q) ==> x in Touched(cfg, w, more).freed)
  {
    var w, w' := Run(cfg, acts), Run(cfg, acts + more);
    StartIsReady(cfg, acts, q);
    RunSplits(cfg, INIT, acts, more);
    SoloEnds(cfg, w, more, q);
    SoloReaches(cfg, w, more, q);
    EndTableFits(cfg, w, more, q);
    OthersStandStill(cfg, w, more, p, q);
    assert !Free(w.prices.table, x);
    assert w.prices.table[x].locked;
  }
}

/** How a saga ends: it always does, after seven tasks at most; and when its locks are all accounted for. */
module SagaOutcome {
  import opened Common
  import opened SagaGraph
  import opened WorldModel
  import opened Ownership
  import P = Pricing
  import PW = PricingWorker
  import O = Offerings
  import S = Specifications
  import St = Store
  import Agreement
  import Visibility

  // ---- nothing leaks -----------------------------------------------------------------------------

  /** The prices that can at most be locked under the id of a process, given where it stands. */
  ghost function MayHold(cfg: Config, proc: Proc): set<Id> {
    var ids := proc.priceIds;
    match proc.token
    case Locking(i) => First(ids, i)
    case RollingBack(n, j) => if cfg.route == ToUnlock then Elems(ids) else First(ids, n) - First(ids, j)
    case Unlocking(j) => Elems(ids) - First(ids, j)
    case At(n) => if PastLock(n) || n == UnlockPrices then Elems(ids) else {}
    case Incident(n) => if n == RevertToDraft then {} else Elems(ids)
  }

  /** Every lock is accounted for by the process it names. */
  ghost predicate NoLeak(cfg: Config, w: World) {
    forall x :: x in w.prices.table && w.prices.table[x].lockedBy.Some?
      ==> HeldInPart(cfg, w, w.prices.table[x].lockedBy.value, x)
  }

  ghost predicate HeldInPart(cfg: Config, w: World, p: Id, x: Id) {
    p in w.procs && x in MayHold(cfg, w.procs[p])
  }

  /** A step that leaves a price locked under the id of a process that will not unlock it: with the error flow
      of Lock Prices routed to Revert, a lock request that ran although its reply was lost, or a rollback call
      answered with an error; with either flow, an Unlock Prices call answered with an error. */
  ghost predicate Leaks(cfg: Config, w: World, a: Action) {
    && a.Task? && a.proc in w.procs && Allowed(cfg, w.procs[a.proc], a.net)
    && var p, ids := a.proc, w.procs[a.proc].priceIds;
       match w.procs[p].token
       case Locking(i) =>
         i < |ids| && cfg.route == ToRevert && a.net == ReplyLost
         && PW.Lockable(w.prices.table, ids[i], p) && ids[i] !in First(ids, i)
       case RollingBack(n, j) => j < n && j < |ids| && cfg.route == ToRevert && LeftLocked(w, a.net, ids[j], p)
       case Unlocking(j) => j < |ids| && LeftLocked(w, a.net, ids[j], p)
       case _ => false
  }

  /** An unlock call that neither ran nor raised, for a price that p has locked. */
  ghost predicate LeftLocked(w: World, net: Net, x: Id, p: Id) {
    !net.Ran() && !net.Raises() && IsLockedBy(w.prices.table, x, p)
  }

  /** A step of process p leaves the locks of others as they are or frees them. */
  ghost predicate LocksMove(cfg: Config, w: World, w': World, p: Id) {
    && p in w.procs && w'.procs.Keys == w.procs.Keys
    && (forall q :: q in w.procs && q != p ==> w'.procs[q] == w.procs[q])
    && forall x :: x in w'.prices.table && w'.prices.table[x].lockedBy.Some? ==>
         if w'.prices.table[x].lockedBy == Some(p) then x in MayHold(cfg, w'.procs[p])
         else x in w.prices.table && w.prices.table[x].lockedBy == w'.prices.table[x].lockedBy
  }

  lemma LocksMoveKeepsNoLeak(cfg: Config, w: World, w': World, p: Id)
    requires NoLeak(cfg, w) && LocksMove(cfg, w, w', p)
    ensures NoLeak(cfg, w')
  {
  }

  /** A step that only moves the token, to a place that may hold as much. */
  lemma TokenMoves(cfg: Config, w: World, w': World, p: Id)
    requires NoLeak(cfg, w) && p in w.procs && w'.procs.Keys == w.procs.Keys && w'.prices == w.prices
    requires forall q :: q in w.procs && q != p ==> w'.procs[q] == w.procs[q]
    requires MayHold(cfg, w.procs[p]) <= MayHold(cfg, w'.procs[p])
    ensures LocksMove(cfg, w, w', p)
  {
  }

  lemma SettledMayHold(cfg: Config, proc: Proc, n: Node, out: Outcome)
    requires proc.token == At(n) && n != LockPrices && n != UnlockPrices && !IsEnd(n)
             && (out == BpmnError ==> Guarded(n))
    ensures var t := match out
                     case Completed => At(OnComplete(n))
                     case BpmnError => At(OnError(cfg.route, n))
                     case Raised => Incident(n);
            MayHold(cfg, proc) <= MayHold(cfg, proc.(token := t))
  {
  }

  lemma SettleMoves(cfg: Config, w: World, ran: World, p: Id, n: Node, replyOk: bool, net: Net)
    requires NoLeak(cfg, w) && p in w.procs && w.procs[p].token == At(n)
    requires n != LockPrices && n != UnlockPrices && !IsEnd(n) && ran.procs == w.procs && ran.prices == w.prices
    ensures LocksMove(cfg, w, Settle(cfg, w, ran, p, n, replyOk, net), p)
  {
    Agreement.SettleShape(cfg, w, ran, p, n, replyOk, net);
    SettledMayHold(cfg, w.procs[p], n, Report(n, replyOk, net));
    TokenMoves(cfg, w, Settle(cfg, w, ran, p, n, replyOk, net), p);
  }

  lemma QueuedMoves(cfg: Config, w: World, p: Id, n: Node, net: Net, now: int)
    requires NoLeak(cfg, w) && p in w.procs && w.procs[p].token == At(n)
    ensures var w' := ExecQueued(cfg, w, p, n, net, now); w' == w || LocksMove(cfg, w, w', p)
  {
    var proc := w.procs[p];
    var o, w' := proc.offering, ExecQueued(cfg, w, p, n, net, now);
    match n
    case LockPrices => if w.worker == None { TokenMoves(cfg, w, w', p); }
    case UnlockPrices =>
      assert First(proc.priceIds, 0) == {};
      if w.worker == None { TokenMoves(cfg, w, w', p); }
    case ValidateSpecs => SettleMoves(cfg, w, w, p, n, S.AllFound(w.specs.table, proc.specIds), net);
    case CreateStoreEntry =>
      SettleMoves(cfg, w, w.(docs := St.SyncAll(w.docs, Sources(w), {o}, true)), p, n, true, net);
    case ConfirmPublication =>
      var (db, reply) := O.Serve(w.offerings, O.Confirm(o, now));
      SettleMoves(cfg, w, w.(offerings := db), p, n, reply == O.Ok, net);
    case DeleteStoreEntry => SettleMoves(cfg, w, w.(docs := w.docs - {o}), p, n, true, net);
    case RevertToDraft => SettleMoves(cfg, w, w.(offerings := O.Serve(w.offerings, O.Fail(o)).0), p, n, true, net);
    case _ =>
  }

  lemma LockingMoves(cfg: Config, w: World, p: Id, i: nat, net: Net, now: int)
    requires NoLeak(cfg, w) && P.Sound(w.prices.table) && !Leaks(cfg, w, Task(p, net, now))
    requires p in w.procs && w.procs[p].token == Locking(i) && Allowed(cfg, w.procs[p], net)
    ensures LocksMove(cfg, w, ExecLocking(w, p, i, net), p)
  {
    var ids, w' := w.procs[p].priceIds, ExecLocking(w, p, i, net);
    FirstNext(ids, i);
    if i < |ids| {
      PW.LockCallEffect(w.prices, ids[i], p, net);
      forall x | x in w.prices.table && w.prices.table[x].lockedBy == Some(p) ensures x in First(ids, i) {
        assert HeldInPart(cfg, w, p, x);
      }
      assert First(ids, 0) == {};
    } else {
      TokenMoves(cfg, w, w', p);
    }
  }

  /** An unlock call on price x leaves at most the rest behind, and x only if it leaks. */
  lemma UnlockMoves(cfg: Config, w: World, w': World, p: Id, x: Id, net: Net)
    requires NoLeak(cfg, w) && P.Sound(w.prices.table) && p in w.procs && p in w'.procs
    requires w'.procs == w.procs[p := w'.procs[p]] && w'.prices == PW.UnlockCall(w.prices, x, net)
    requires MayHold(cfg, w.procs[p]) - {x} <= MayHold(cfg, w'.procs[p])
    requires x in MayHold(cfg, w'.procs[p]) || net.Ran() || !IsLockedBy(w.prices.table, x, p)
    ensures LocksMove(cfg, w, w', p)
  {
    PW.UnlockCallEffect(w.prices, x, net);
    forall y | y in w.prices.table && w.prices.table[y].lockedBy == Some(p) ensures y in MayHold(cfg, w.procs[p]) {
      assert HeldInPart(cfg, w, p, y);
    }
  }

  lemma RollbackMoves(cfg: Config, w: World, p: Id, n: nat, j: nat, net: Net, now: int)
    requires NoLeak(cfg, w) && P.Sound(w.prices.table) && !Leaks(cfg, w, Task(p, net, now))
    requires p in w.procs && w.procs[p].token == RollingBack(n, j) && Allowed(cfg, w.procs[p], net)
    ensures LocksMove(cfg, w, ExecRollback(cfg, w, p, n, j, net), p)
  {
    var ids, w' := w.procs[p].priceIds, ExecRollback(cfg, w, p, n, j, net);
    FirstNext(ids, j);
    if j < n && j < |ids| { UnlockMoves(cfg, w, w', p, ids[j], net); } else { TokenMoves(cfg, w, w', p); }
  }

  lemma UnlockingMoves(cfg: Config, w: World, p: Id, j: nat, net: Net, now: int)
    requires NoLeak(cfg, w) && P.Sound(w.prices.table) && !Leaks(cfg, w, Task(p, net, now))
    requires p in w.procs && w.procs[p].token == Unlocking(j) && Allowed(cfg, w.procs[p], net)
    ensures LocksMove(cfg, w, ExecUnlocking(w, p, j, net), p)
  {
    var ids, w' := w.procs[p].priceIds, ExecUnlocking(w, p, j, net);
    FirstNext(ids, j);
    if j < |ids| { UnlockMoves(cfg, w, w', p, ids[j], net); } else { TokenMoves(cfg, w, w', p); }
  }

  lemma TaskKeepsNoLeak(cfg: Config, w: World, p: Id, net: Net, now: int)
    requires NoLeak(cfg, w) && P.Sound(w.prices.table) && p in w.procs && !Leaks(cfg, w, Task(p, net, now))
    ensures NoLeak(cfg, ExecTask(cfg, w, p, net, now))
  {
    var w' := ExecTask(cfg, w, p, net, now);
    if Allowed(cfg, w.procs[p], net) && w' != w {
      match w.procs[p].token {
        case At(n) => QueuedMoves(cfg, w, p, n, net, now);
        case Locking(i) => LockingMoves(cfg, w, p, i, net, now);
        case RollingBack(n, j) => RollbackMoves(cfg, w, p, n, j, net, now);
        case Unlocking(j) => UnlockingMoves(cfg, w, p, j, net, now);
        case Incident(_) =>
      }
      LocksMoveKeepsNoLeak(cfg, w, w', p);
    }
  }

  /** A lock nobody accounts for. */
  lemma Unaccounted(cfg: Config, w: World, p: Id, x: Id)
    requires x in w.prices.table && w.prices.table[x].lockedBy == Some(p)
    requires p in w.procs && x !in MayHold(cfg, w.procs[p])
    ensures !NoLeak(cfg, w)
  {
    assert !HeldInPart(cfg, w, p, x);
  }

  lemma LostReplyShows(cfg: Config, w: World, p: Id, i: nat, now: int)
    requires P.Sound(w.prices.table) && p in w.procs && w.procs[p].token == Locking(i)
    requires Leaks(cfg, w, Task(p, ReplyLost, now))
    ensures !NoLeak(cfg, ExecLocking(w, p, i, ReplyLost))
  {
    var ids := w.procs[p].priceIds;
    PW.LockCallEffect(w.prices, ids[i], p, ReplyLost);
    Unaccounted(cfg, ExecLocking(w, p, i, ReplyLost), p, ids[i]);
  }

  lemma RefusedRollbackShows(cfg: Config, w: World, p: Id, n: nat, j: nat, net: Net, now: int)
    requires p in w.procs && w.procs[p].token == RollingBack(n, j) && Leaks(cfg, w, Task(p, net, now))
    ensures !NoLeak(cfg, ExecRollback(cfg, w, p, n, j, net))
  {
    var ids := w.procs[p].priceIds;
    FirstNext(ids, j);
    Unaccounted(cfg, ExecRollback(cfg, w, p, n, j, net), p, ids[j]);
  }

  lemma RefusedUnlockShows(cfg: Config, w: World, p: Id, j: nat, net: Net, now: int)
    requires p in w.procs && w.procs[p].token == Unlocking(j) && Leaks(cfg, w, Task(p, net, now))
    ensures !NoLeak(cfg, ExecUnlocking(w, p, j, net))
  {
    var ids := w.procs[p].priceIds;
    FirstNext(ids, j);
    Unaccounted(cfg, ExecUnlocking(w, p, j, net), p, ids[j]);
  }

  lemma LeakShows(cfg: Config, w: World, a: Action)
    requires P.Sound(w.prices.table) && Leaks(cfg, w, a)
    ensures !NoLeak(cfg, Exec(cfg, w, a))
  {
    match w.procs[a.proc].token
    case Locking(i) => LostReplyShows(cfg, w, a.proc, i, a.now);
    case RollingBack(n, j) => RefusedRollbackShows(cfg, w, a.proc, n, j, a.net, a.now);
    case Unlocking(j) => RefusedUnlockShows(cfg, w, a.proc, j, a.net, a.now);
  }

  /** A step that gives no price a holder it did not have, and forgets no process. */
  lemma NoNewHolder(cfg: Config, w: World, w': World)
    requires NoLeak(cfg, w)
    requires forall q :: q in w.procs ==> q in w'.procs && w'.procs[q] == w.procs[q]
    requires forall x :: x in w'.prices.table && w'.prices.table[x].lockedBy.Some? ==>
               x in w.prices.table && w.prices.table[x].lockedBy == w'.prices.table[x].lockedBy
    ensures NoLeak(cfg, w')
  {
  }

  lemma ExecKeepsNoLeak(cfg: Config, w: World, a: Action)
    requires NoLeak(cfg, w) && P.Sound(w.prices.table) && w.procs.Keys <= w.used && !Leaks(cfg, w, a)
    ensures NoLeak(cfg, Exec(cfg, w, a))
  {
    match a
    case Task(p, net, now) => if p in w.procs { TaskKeepsNoLeak(cfg, w, p, net, now); }
    case PriceAdmin(call) => AdminLocksNothing(cfg, w, call); NoNewHolder(cfg, w, Exec(cfg, w, a));
    case _ => OthersLockNothing(cfg, w, a); NoNewHolder(cfg, w, Exec(cfg, w, a));
  }

  /** Whatever the route and the faults: a step leaves every lock accounted for if and only if it does not leak. */
  lemma AccountedUnlessLeaked(cfg: Config, w: World, a: Action)
    requires NoLeak(cfg, w) && Fits(cfg, w)
    ensures NoLeak(cfg, Exec(cfg, w, a)) <==> !Leaks(cfg, w, a)
  {
    if Leaks(cfg, w, a) { LeakShows(cfg, w, a); } else { ExecKeepsNoLeak(cfg, w, a); }
  }

  lemma OthersLockNothing(cfg: Config, w: World, a: Action)
    requires !a.Task? && !a.PriceAdmin? && w.procs.Keys <= w.used
    ensures var w' := Exec(cfg, w, a);
            w'.prices == w.prices && forall q :: q in w.procs ==> q in w'.procs && w'.procs[q] == w.procs[q]
  {
  }

  lemma AdminLocksNothing(cfg: Config, w: World, call: P.Call)
    requires P.Sound(w.prices.table)
    ensures var t' := Exec(cfg, w, PriceAdmin(call)).prices.table;
            forall x :: x in t' && t'[x].lockedBy.Some? ==>
              x in w.prices.table && w.prices.table[x].lockedBy == t'[x].lockedBy
  {
  }

  ghost predicate AlwaysAccounted(cfg: Config, acts: seq<Action>) {
    NoLeak(cfg, Run(cfg, acts)) && (acts == [] || AlwaysAccounted(cfg, acts[..|acts| - 1]))
  }

  /** No step of the run leaks a lock. */
  ghost predicate NeverLeaks(cfg: Config, acts: seq<Action>) {
    acts == [] || (NeverLeaks(cfg, acts[..|acts| - 1]) && !Leaks(cfg, Run(cfg, acts[..|acts| - 1]), acts[|acts| - 1]))
  }

  /** Every lock is always accounted for by the process it names, if and only if no step leaks. */
  lemma {:induction false} AccountingIsNoLeak(cfg: Config, acts: seq<Action>)
    ensures AlwaysAccounted(cfg, acts) <==> NeverLeaks(cfg, acts)
    ensures NeverLeaks(cfg, acts) ==> NoLeak(cfg, Run(cfg, acts))
  {
    if acts != [] {
      var front := acts[..|acts| - 1];
      AccountingIsNoLeak(cfg, front);
      RunFits(cfg, front);
      if NeverLeaks(cfg, front) { AccountedUnlessLeaked(cfg, Run(cfg, front), acts[|acts| - 1]); }
    }
  }

  /** In every run in which no step leaks, a saga that has come to Revert To Draft or ended in failure has no
      price locked, whatever the other sagas and the administrators did. */
  lemma FailedSagaHoldsNothing(cfg: Config, acts: seq<Action>, p: Id)
    requires NeverLeaks(cfg, acts) && p in Run(cfg, acts).procs
    requires Run(cfg, acts).procs[p].token == At(RevertToDraft) || Run(cfg, acts).procs[p].token == At(Failed)
    ensures PW.HoldsNothing(Run(cfg, acts).prices.table, p)
  {
    AccountingIsNoLeak(cfg, acts);
    forall x | x in Run(cfg, acts).prices.table ensures Run(cfg, acts).prices.table[x].lockedBy != Some(p) {
      assert !HeldInPart(cfg, Run(cfg, acts), p, x);
    }
  }

  // ---- the two endings ---------------------------------------------------------------------------

  /** The step by which a saga fails: its offering is a DRAFT again, if and only if the revert call was not
      refused; where no deletion was lost it has no document, and where no step leaked no price is locked
      under the id of the saga. */
  lemma FailedSagaLeavesNothing(cfg: Config, acts: seq<Action>, a: Action, p: Id)
    requires p in Run(cfg, acts).procs && !IsEnd(TaskOf(Run(cfg, acts).procs[p].token))
    requires var w' := Run(cfg, acts + [a]); p in w'.procs && w'.procs[p].token == At(Failed)
    ensures var w' := Run(cfg, acts + [a]);
            var o := w'.procs[p].offering;
            && a.Task? && o in w'.offerings.table
            && w'.offerings.table[o].status == (if a.net == Refused then O.PUBLISHING else O.DRAFT)
            && (Visibility.NoLostDelete(cfg, acts) ==> o !in w'.docs)
            && (NeverLeaks(cfg, acts) ==> PW.HoldsNothing(w'.prices.table, p))
  {
    var w := Run(cfg, acts);
    assert (acts + [a])[..|acts + [a]| - 1] == acts;
    Agreement.RunKeepsInv(cfg, acts);
    FailsByReverting(cfg, w, a, p);
    if NeverLeaks(cfg, acts) { FailedSagaHoldsNothing(cfg, acts, p); }
    if Visibility.NoLostDelete(cfg, acts) {
      Visibility.RunKeepsInv(cfg, acts);
      Visibility.NotShownNotStored(w, p);
    }
  }

  /** Failed is reached by Revert To Draft alone. */
  lemma FailsByReverting(cfg: Config, w: World, a: Action, p: Id)
    requires Agreement.Inv(w) && p in w.procs && !IsEnd(TaskOf(w.procs[p].token))
    requires var w' := Exec(cfg, w, a); p in w'.procs && w'.procs[p].token == At(Failed)
    ensures w.procs[p].token == At(RevertToDraft) && a.Task? && a.proc == p
    ensures var w', o := Exec(cfg, w, a), w.procs[p].offering;
            && w'.procs[p].offering == o && o in w'.offerings.table
            && w'.offerings.table[o].status == (if a.net == Refused then O.PUBLISHING else O.DRAFT)
            && w'.docs == w.docs && w'.prices == w.prices
  {
    EndsByOwnTask(cfg, w, a, p);
    assert Agreement.Agrees(w, p);
    RevertShape(cfg, w, p, a.net, a.now);
  }

  lemma RevertShape(cfg: Config, w: World, p: Id, net: Net, now: int)
    requires p in w.procs && w.procs[p].token == At(RevertToDraft) && Allowed(cfg, w.procs[p], net)
    requires var o := w.procs[p].offering; o in w.offerings.table && w.offerings.table[o].status == O.PUBLISHING
    requires ExecQueued(cfg, w, p, RevertToDraft, net, now).procs[p].token == At(Failed)
    ensures var w', o := ExecQueued(cfg, w, p, RevertToDraft, net, now), w.procs[p].offering;
            && o in w'.offerings.table && w'.docs == w.docs && w'.prices == w.prices
            && w'.offerings.table[o].status == (if net == Refused then O.PUBLISHING else O.DRAFT)
  {
    var db := O.Serve(w.offerings, O.Fail(w.procs[p].offering)).0;
    Agreement.SettleShape(cfg, w, w.(offerings := db), p, RevertToDraft, true, net);
  }

  /** An end event is reached by a step of the process itself, out of the one task that leads there. */
  lemma EndsByOwnTask(cfg: Config, w: World, a: Action, p: Id)
    requires w.procs.Keys <= w.used && p in w.procs && !IsEnd(TaskOf(w.procs[p].token))
    requires var w' := Exec(cfg, w, a); p in w'.procs && IsEnd(TaskOf(w'.procs[p].token))
    ensures a.Task? && a.proc == p && Allowed(cfg, w.procs[p], a.net)
    ensures Exec(cfg, w, a).procs[p].offering == w.procs[p].offering
    ensures TaskOf(Exec(cfg, w, a).procs[p].token) == Failed ==> w.procs[p].token == At(RevertToDraft)
    ensures TaskOf(Exec(cfg, w, a).procs[p].token) == Succeeded ==> w.procs[p].token == At(ConfirmPublication)
  {
    if a.Task? && a.proc in w.procs { TaskMovesOn(cfg, w, a.proc, a.net, a.now); }
  }

  lemma SucceedsByConfirming(cfg: Config, w: World, a: Action, p: Id)
    requires Agreement.Inv(w) && p in w.procs && !IsEnd(TaskOf(w.procs[p].token))
    requires var w' := Exec(cfg, w, a); p in w'.procs && w'.procs[p].token == At(Succeeded)
    ensures w.procs[p].token == At(ConfirmPublication) && Exec(cfg, w, a).docs == w.docs
    ensures var w' := Exec(cfg, w, a);
            var o := w.procs[p].offering;
            w'.procs[p].offering == o && o in w'.offerings.table && w'.offerings.table[o].status == O.PUBLISHED
  {
    EndsByOwnTask(cfg, w, a, p);
    Agreement.TaskAdvances(cfg, w, p, a.net, a.now);
    assert Agreement.Agrees(w, p);
    assert Agreement.StatusFits(w.procs[p].token, O.PUBLISHING);
    ConfirmKeepsDocs(cfg, w, p, a.net, a.now);
  }

  lemma ConfirmKeepsDocs(cfg: Config, w: World, p: Id, net: Net, now: int)
    requires p in w.procs && w.procs[p].token == At(ConfirmPublication)
    ensures ExecQueued(cfg, w, p, ConfirmPublication, net, now).docs == w.docs
  {
  }

  // ---- every saga ends -----------------------------------------------------------------------------

  /** The task a process is at. */
  function TaskOf(t: Token): Node {
    match t
    case At(n) => n
    case Locking(_) => LockPrices
    case RollingBack(_, _) => LockPrices
    case Unlocking(_) => UnlockPrices
    case Incident(n) => n
  }

  /** An upper bound on the tasks from node n to an end. */
  function TasksLeft(n: Node): nat {
    match n
    case LockPrices => 7
    case ValidateSpecs => 6
    case CreateStoreEntry => 5
    case ConfirmPublication => 4
    case DeleteStoreEntry => 3
    case UnlockPrices => 2
    case RevertToDraft => 1
    case _ => 0
  }

  /** How often process p left a task behind in a run from w. */
  ghost function TasksFinished(cfg: Config, w: World, acts: seq<Action>, p: Id): nat
    requires p in w.procs
  {
    if acts == [] then 0
    else
      var front := acts[..|acts| - 1];
      var mid, end := RunFrom(cfg, w, front), RunFrom(cfg, w, acts);
      TasksFinished(cfg, w, front, p)
      + if p in mid.procs && p in end.procs && TaskOf(mid.procs[p].token) != TaskOf(end.procs[p].token) then 1 else 0
  }

  /** A step leaves a process at its task or moves it on, by one task or more towards an end. */
  lemma TokenAdvances(cfg: Config, w: World, a: Action, p: Id)
    requires p in w.procs && w.procs.Keys <= w.used
    ensures var w' := Exec(cfg, w, a);
            && p in w'.procs && w'.procs.Keys <= w'.used && w.used <= w'.used
               && w'.procs[p].priceIds == w.procs[p].priceIds
            && (TaskOf(w'.procs[p].token) == TaskOf(w.procs[p].token)
                || TasksLeft(TaskOf(w'.procs[p].token)) < TasksLeft(TaskOf(w.procs[p].token)))
  {
    if a.Task? && a.proc in w.procs { TaskMovesOn(cfg, w, a.proc, a.net, a.now); }
  }

  /** What a step of process p does to tokens. */
  ghost predicate MovesOn(w: World, w': World, p: Id) {
    && p in w.procs && p in w'.procs && w'.used == w.used
    && w'.procs == w.procs[p := w.procs[p].(token := w'.procs[p].token, locked := w'.procs[p].locked)]
    && var n, n' := TaskOf(w.procs[p].token), TaskOf(w'.procs[p].token);
       && (n' == n || TasksLeft(n') < TasksLeft(n))
       && (n' == Failed && n != Failed ==> w.procs[p].token == At(RevertToDraft))
       && (n' == Succeeded && n != Succeeded ==> w.procs[p].token == At(ConfirmPublication))
  }

  lemma LockingMovesOn(w: World, p: Id, i: nat, net: Net)
    requires p in w.procs && w.procs[p].token == Locking(i)
    ensures MovesOn(w, ExecLocking(w, p, i, net), p)
  {
  }

  lemma RollbackMovesOn(cfg: Config, w: World, p: Id, n: nat, j: nat, net: Net)
    requires p in w.procs && w.procs[p].token == RollingBack(n, j)
    ensures MovesOn(w, ExecRollback(cfg, w, p, n, j, net), p)
  {
  }

  lemma UnlockingMovesOn(w: World, p: Id, j: nat, net: Net)
    requires p in w.procs && w.procs[p].token == Unlocking(j)
    ensures MovesOn(w, ExecUnlocking(w, p, j, net), p)
  {
  }

  lemma StayPut(w: World, p: Id)
    requires p in w.procs
    ensures MovesOn(w, w, p)
  {
  }

  lemma TaskMovesOn(cfg: Config, w: World, p: Id, net: Net, now: int)
    requires p in w.procs
    ensures MovesOn(w, ExecTask(cfg, w, p, net, now), p)
    ensures !Allowed(cfg, w.procs[p], net) ==> ExecTask(cfg, w, p, net, now) == w
  {
    if !Allowed(cfg, w.procs[p], net) {
      StayPut(w, p);
    } else {
      match w.procs[p].token
      case At(n) => Agreement.QueuedFollows(cfg, w, p, n, net, now);
      case Locking(i) => LockingMovesOn(w, p, i, net);
      case RollingBack(n, j) => RollbackMovesOn(cfg, w, p, n, j, net);
      case Unlocking(j) => UnlockingMovesOn(w, p, j, net);
      case Incident(_) => StayPut(w, p);
    }
  }

  /** Whatever happens around it, a saga finishes at most seven tasks in any run. */
  lemma {:induction false} AtMostSevenTasks(cfg: Config, w: World, acts: seq<Action>, p: Id)
    requires p in w.procs && w.procs.Keys <= w.used
    ensures var w' := RunFrom(cfg, w, acts);
            && p in w'.procs && w'.procs.Keys <= w'.used
            && TasksFinished(cfg, w, acts, p) + TasksLeft(TaskOf(w'.procs[p].token))
               <= TasksLeft(TaskOf(w.procs[p].token)) <= 7
  {
    if acts != [] {
      AtMostSevenTasks(cfg, w, acts[..|acts| - 1], p);
      TokenAdvances(cfg, RunFrom(cfg, w, acts[..|acts| - 1]), acts[|acts| - 1], p);
    }
  }
}

/** One pricing worker executes one task at a time, so a handler unlocks only what it locked itself. */
module OneWorker {
  import opened Common
  import opened SagaGraph
  import opened WorldModel
  import opened Ownership
  import P = Pricing
  import Agreement

  /** The prices the running handler is to unlock or has unlocked, and that its process once locked. */
  ghost function Targets(proc: Proc): set<Id> {
    match proc.token
    case RollingBack(n, _) => First(proc.priceIds, n)
    case Unlocking(_) => if proc.locked then Elems(proc.priceIds) else {}
    case _ => {}
  }

  ghost predicate WorkerFits(w: World) {
    && (w.worker.Some? ==> w.worker.value in w.procs)
    && forall p :: p in w.procs ==> (InHandler(w.procs[p].token) <==> w.worker == Some(p))
  }

  /** A target that is locked is locked by the process of the handler. */
  ghost predicate OwnTargets(t: P.Table, proc: Proc, p: Id) {
    forall x :: x in Targets(proc) && x in t && t[x].locked ==> t[x].lockedBy == Some(p)
  }

  ghost predicate Inv(w: World) {
    WorkerFits(w) && forall p :: p in w.procs ==> OwnTargets(w.prices.table, w.procs[p], p)
  }

  /** Only a saga that failed to lock, sent to Unlock Prices all the same, can take prices away. */
  lemma OnlyFailedLockersSteal(cfg: Config, w: World, a: Action)
    requires Ownership.Inv(cfg, w) && Inv(w) && Steals(cfg, w, a)
    ensures w.procs[a.proc].token.Unlocking? && !w.procs[a.proc].locked && cfg.route == ToUnlock
  {
    var p, x := a.proc, Freed(cfg, w, a).value;
    var q :| q in w.procs && q != p && x in Holds(w.procs[q]);
    assert IsLockedBy(w.prices.table, x, q);
    assert OwnTargets(w.prices.table, w.procs[p], p);
    assert x !in Targets(w.procs[p]);
  }

  // ---- every step keeps it ----------------------------------------------------------------------

  /** A step outside the pricing handlers locks nothing and leaves the worker alone. */
  lemma OthersKeepInv(cfg: Config, w: World, a: Action)
    requires Fits(cfg, w) && Inv(w) && !a.Task?
    ensures Inv(Exec(cfg, w, a))
  {
    var w' := Exec(cfg, w, a);
    match a
    case PriceAdmin(call) => if !call.Lock? && !call.Unlock? { LockedRowsStay(w.prices, call); }
    case Publish(o, p, started) =>
      assert w'.prices == w.prices && w'.worker == w.worker;
      assert p in w'.procs && p !in w.procs ==> w'.procs == w.procs[p := w'.procs[p]] && Targets(w'.procs[p]) == {};
    case _ =>
      OthersTouchNothing(cfg, w, a);
  }

  /** A step of process p as the worker sees it. */
  ghost predicate WorkerMoves(w: World, w': World, p: Id) {
    && p in w.procs && p in w'.procs && w'.procs == w.procs[p := w'.procs[p]]
    && (InHandler(w'.procs[p].token) ==> w'.worker == Some(p) && (w.worker == None || w.worker == Some(p)))
    && (!InHandler(w'.procs[p].token) ==> w'.worker == if w.worker == Some(p) then None else w.worker)
  }

  lemma QueuedWorker(cfg: Config, w: World, p: Id, n: Node, net: Net, now: int)
    requires WorkerFits(w) && p in w.procs && w.procs[p].token == At(n)
    ensures WorkerMoves(w, ExecQueued(cfg, w, p, n, net, now), p)
  {
    Agreement.QueuedFollows(cfg, w, p, n, net, now);
  }

  lemma LockingWorker(w: World, p: Id, i: nat, net: Net)
    requires WorkerFits(w) && p in w.procs && w.procs[p].token == Locking(i)
    ensures WorkerMoves(w, ExecLocking(w, p, i, net), p)
  {
  }

  lemma RollbackWorker(cfg: Config, w: World, p: Id, n: nat, j: nat, net: Net)
    requires WorkerFits(w) && p in w.procs && w.procs[p].token == RollingBack(n, j)
    ensures WorkerMoves(w, ExecRollback(cfg, w, p, n, j, net), p)
  {
  }

  lemma UnlockingWorker(w: World, p: Id, j: nat, net: Net)
    requires WorkerFits(w) && p in w.procs && w.procs[p].token == Unlocking(j)
    ensures WorkerMoves(w, ExecUnlocking(w, p, j, net), p)
  {
  }

  lemma TaskWorker(cfg: Config, w: World, p: Id, net: Net, now: int)
    requires WorkerFits(w) && p in w.procs && Allowed(cfg, w.procs[p], net)
    ensures WorkerMoves(w, ExecTask(cfg, w, p, net, now), p)
  {
    match w.procs[p].token
    case At(n) => QueuedWorker(cfg, w, p, n, net, now);
    case Locking(i) => LockingWorker(w, p, i, net);
    case RollingBack(n, j) => RollbackWorker(cfg, w, p, n, j, net);
    case Unlocking(j) => UnlockingWorker(w, p, j, net);
    case Incident(_) => assert w.procs == w.procs[p := w.procs[p]];
  }

  /** The targets of p after its step: as before, or exactly what it must hold. */
  lemma TargetsMove(cfg: Config, w: World, p: Id, net: Net, now: int)
    requires Fits(cfg, w) && p in w.procs && Allowed(cfg, w.procs[p], net)
    ensures var w' := ExecTask(cfg, w, p, net, now);
            p in w'.procs && (Targets(w'.procs[p]) <= Targets(w.procs[p]) || Targets(w'.procs[p]) <= Holds(w.procs[p]))
  {
    match w.procs[p].token
    case At(n) => Agreement.QueuedFollows(cfg, w, p, n, net, now);
    case _ =>
  }

  lemma TargetsStayOwn(cfg: Config, w: World, w': World, p: Id, freed: Option<Id>)
    requires Ownership.Inv(cfg, w) && Step(cfg, w, w', p, freed) && OwnTargets(w.prices.table, w.procs[p], p)
    requires Targets(w'.procs[p]) <= Targets(w.procs[p]) || Targets(w'.procs[p]) <= Holds(w.procs[p])
    ensures OwnTargets(w'.prices.table, w'.procs[p], p)
  {
    forall x | x in Targets(w'.procs[p]) && x in w'.prices.table && w'.prices.table[x].locked
      ensures w'.prices.table[x].lockedBy == Some(p)
    {
      assert x in Holds(w.procs[p]) ==> IsLockedBy(w.prices.table, x, p);
    }
  }

  /** Another handler is not running, so its targets are none. */
  lemma OthersHaveNoTargets(w: World, w': World, p: Id, q: Id)
    requires WorkerFits(w) && WorkerMoves(w, w', p) && q in w.procs && q != p
    requires forall x :: x in w.prices.table && x in w'.prices.table && w'.prices.table[x] != w.prices.table[x] ==>
               InHandler(w.procs[p].token)
    requires w'.prices.table.Keys == w.prices.table.Keys && OwnTargets(w.prices.table, w.procs[q], q)
    ensures OwnTargets(w'.prices.table, w'.procs[q], q)
  {
    if InHandler(w.procs[q].token) {
      assert w.worker == Some(q) && !InHandler(w.procs[p].token);
    }
  }

  lemma TaskKeepsInv(cfg: Config, w: World, p: Id, net: Net, now: int)
    requires Ownership.Inv(cfg, w) && Inv(w) && p in w.procs && Allowed(cfg, w.procs[p], net)
    ensures Inv(ExecTask(cfg, w, p, net, now))
  {
    var w', freed := ExecTask(cfg, w, p, net, now), Freed(cfg, w, Task(p, net, now));
    TaskWorker(cfg, w, p, net, now);
    TaskSteps(cfg, w, p, net, now);
    TargetsMove(cfg, w, p, net, now);
    TargetsStayOwn(cfg, w, w', p, freed);
    if !InHandler(w.procs[p].token) { OnlyHandlersTouchPrices(cfg, w, p, net, now); }
    forall q | q in w'.procs ensures OwnTargets(w'.prices.table, w'.procs[q], q) {
      if q != p { OthersHaveNoTargets(w, w', p, q); }
    }
    assert WorkerFits(w');
  }

  lemma OnlyHandlersTouchPrices(cfg: Config, w: World, p: Id, net: Net, now: int)
    requires p in w.procs && !InHandler(w.procs[p].token)
    ensures ExecTask(cfg, w, p, net, now).prices == w.prices
  {
    match w.procs[p].token
    case At(n) => Agreement.QueuedFollows(cfg, w, p, n, net, now);
    case Incident(_) =>
  }

  lemma ExecKeepsInv(cfg: Config, w: World, a: Action)
    requires Ownership.Inv(cfg, w) && Inv(w)
    ensures Inv(Exec(cfg, w, a))
  {
    if !a.Task? {
      OthersKeepInv(cfg, w, a);
    } else if a.proc in w.procs && Allowed(cfg, w.procs[a.proc], a.net) {
      TaskKeepsInv(cfg, w, a.proc, a.net, a.now);
    }
  }

  lemma {:induction false} RunKeepsInv(cfg: Config, acts: seq<Action>)
    requires NoTheft(cfg, acts)
    ensures Inv(Run(cfg, acts))
  {
    if acts != [] {
      var front := acts[..|acts| - 1];
      RunKeepsInv(cfg, front);
      OwnershipIsNoTheft(cfg, front);
      ExecKeepsInv(cfg, Run(cfg, front), acts[|acts| - 1]);
    }
  }

  /** With the error flow of Lock Prices routed to Revert nothing is ever taken away. */
  lemma {:induction false} RevertRouteNeverSteals(cfg: Config, acts: seq<Action>)
    requires cfg.route == ToRevert
    ensures NoTheft(cfg, acts) && Ownership.Inv(cfg, Run(cfg, acts)) && Inv(Run(cfg, acts))
  {
    if acts != [] {
      var front, a := acts[..|acts| - 1], acts[|acts| - 1];
      RevertRouteNeverSteals(cfg, front);
      if Steals(cfg, Run(cfg, front), a) { OnlyFailedLockersSteal(cfg, Run(cfg, front), a); }
    }
    OwnershipIsNoTheft(cfg, acts);
    RunKeepsInv(cfg, acts);
  }

  // ---- a lock that nobody will release ------------------------------------------------------------

  /** A price locked under the id of a failed saga. */
  ghost predicate Leaked(w: World, p: Id, x: Id) {
    p in w.procs && w.procs[p].token == At(Failed) && IsLockedBy(w.prices.table, x, p)
  }

  lemma ExecKeepsLeak(cfg: Config, w: World, a: Action, p: Id, x: Id)
    requires cfg.route == ToRevert && Ownership.Inv(cfg, w) && Inv(w) && Leaked(w, p, x)
    ensures Leaked(Exec(cfg, w, a), p, x)
  {
    if a.Task? {
      if a.proc in w.procs && Allowed(cfg, w.procs[a.proc], a.net) { TaskKeepsLeak(cfg, w, a, p, x); }
    } else {
      OthersKeepLeak(cfg, w, a, p, x);
    }
  }

  lemma OthersKeepLeak(cfg: Config, w: World, a: Action, p: Id, x: Id)
    requires Fits(cfg, w) && Leaked(w, p, x) && !a.Task?
    ensures Leaked(Exec(cfg, w, a), p, x)
  {
    match a
    case PriceAdmin(call) => if !call.Lock? && !call.Unlock? { LockedRowsStay(w.prices, call); }
    case Publish(_, _, _) => assert Exec(cfg, w, a).prices == w.prices;
    case _ => OthersTouchNothing(cfg, w, a);
  }

  lemma TaskKeepsLeak(cfg: Config, w: World, a: Action, p: Id, x: Id)
    requires cfg.route == ToRevert && Ownership.Inv(cfg, w) && Inv(w) && Leaked(w, p, x)
    requires a.Task? && a.proc in w.procs && Allowed(cfg, w.procs[a.proc], a.net)
    ensures Leaked(Exec(cfg, w, a), p, x)
  {
    TaskSteps(cfg, w, a.proc, a.net, a.now);
    if Freed(cfg, w, a).Some? { FreedIsOwn(cfg, w, a); }
    if a.proc == p { assert Exec(cfg, w, a) == w; }
  }

  /** Under this route a handler unlocks nothing that is locked by another process. */
  lemma FreedIsOwn(cfg: Config, w: World, a: Action)
    requires cfg.route == ToRevert && Fits(cfg, w) && Inv(w) && Freed(cfg, w, a).Some?
    ensures var x := Freed(cfg, w, a).value;
            x in w.prices.table && w.prices.table[x].locked ==> w.prices.table[x].lockedBy == Some(a.proc)
  {
    var x := Freed(cfg, w, a).value;
    assert TokenFits(cfg, w.procs[a.proc]) && OwnTargets(w.prices.table, w.procs[a.proc], a.proc);
    assert x in Targets(w.procs[a.proc]);
  }

  /** With the error flow routed to Revert, a price locked under the id of a failed saga stays so for ever. */
  lemma {:induction false} LeakedLockStays(cfg: Config, acts: seq<Action>, more: seq<Action>, p: Id, x: Id)
    requires cfg.route == ToRevert && Leaked(Run(cfg, acts), p, x)
    ensures Leaked(Run(cfg, acts + more), p, x)
  {
    if more == [] {
      assert acts + more == acts;
    } else {
      var front := more[..|more| - 1];
      assert (acts + more)[..|acts + more| - 1] == acts + front;
      LeakedLockStays(cfg, acts, front, p, x);
      RevertRouteNeverSteals(cfg, acts + front);
      ExecKeepsLeak(cfg, Run(cfg, acts + front), more[|more| - 1], p, x);
    }
  }
}

/** Lock ownership: a saga holds what it locked until it gives it back, unless another saga takes it away.
    Nothing here depends on how many pricing workers there are. */
module Ownership {
  import opened Common
  import opened SagaGraph
  import opened WorldModel
  import P = Pricing
  import PW = PricingWorker
  import Agreement

  /** The first k ids of a list. */
  ghost function First(ids: seq<Id>, k: nat): set<Id> {
    set i | 0 <= i < |ids| && i < k :: ids[i]
  }

  lemma FirstNext(ids: seq<Id>, k: nat)
    ensures k < |ids| ==> First(ids, k + 1) == First(ids, k) + {ids[k]}
    ensures k >= |ids| ==> First(ids, k) == Elems(ids)
  {
  }

  /** Tasks between Lock Prices and Unlock Prices. */
  predicate PastLock(n: Node) {
    n == ValidateSpecs || n == CreateStoreEntry || n == ConfirmPublication || n == DeleteStoreEntry || n == Succeeded
  }

  /** The saga has completed Lock Prices and has not begun Unlock Prices; ended in success counts. */
  predicate InPossession(proc: Proc) {
    match proc.token
    case At(n) => PastLock(n) || (n == UnlockPrices && proc.locked)
    case Incident(n) => PastLock(n)
    case _ => false
  }

  /** The prices the process must be holding, given where it stands. */
  ghost function Holds(proc: Proc): set<Id> {
    var ids := proc.priceIds;
    match proc.token
    case Locking(i) => First(ids, i)
    case RollingBack(n, j) => First(ids, n) - First(ids, j)
    case Unlocking(j) => if proc.locked then Elems(ids) - First(ids, j) else {}
    case _ => if InPossession(proc) then Elems(ids) else {}
  }

  predicate InHandler(t: Token) { t.Locking? || t.RollingBack? || t.Unlocking? }

  predicate TokenFits(cfg: Config, proc: Proc) {
    match proc.token
    case At(n) =>
      && (PastLock(n) ==> proc.locked)
      && (n == LockPrices ==> !proc.locked)
      && (n == UnlockPrices && cfg.route == ToRevert ==> proc.locked)
    case Incident(n) => PastLock(n) ==> proc.locked
    case Locking(i) => i <= |proc.priceIds| && !proc.locked
    case RollingBack(n, j) => j <= n < |proc.priceIds| && !proc.locked
    case Unlocking(j) => j <= |proc.priceIds| && (cfg.route == ToRevert ==> proc.locked)
  }

  ghost predicate IsLockedBy(t: P.Table, x: Id, p: Id) { x in t && t[x].locked && t[x].lockedBy == Some(p) }

  /** Every process has what it must be holding. */
  ghost predicate Owned(w: World) {
    forall p, x :: p in w.procs && x in Holds(w.procs[p]) ==> IsLockedBy(w.prices.table, x, p)
  }

  /** No process but p must be holding x. */
  ghost predicate Unclaimed(w: World, p: Id, x: Id) {
    forall q :: q in w.procs && q != p ==> x !in Holds(w.procs[q])
  }

  /** What every step keeps, thefts included. */
  ghost predicate Fits(cfg: Config, w: World) {
    && w.procs.Keys <= w.used && w.prices.table.Keys <= w.used && P.Sound(w.prices.table)
    && forall p :: p in w.procs ==> TokenFits(cfg, w.procs[p])
  }

  ghost predicate Inv(cfg: Config, w: World) { Fits(cfg, w) && Owned(w) }

  /** The price that the unlock call of a step reaches. */
  ghost function Freed(cfg: Config, w: World, a: Action): Option<Id> {
    if !a.Task? || a.proc !in w.procs || !Allowed(cfg, w.procs[a.proc], a.net) || !a.net.Ran() then None
    else
      var ids := w.procs[a.proc].priceIds;
      match w.procs[a.proc].token
      case RollingBack(n, j) => if j < n && j < |ids| then Some(ids[j]) else None
      case Unlocking(j) => if j < |ids| then Some(ids[j]) else None
      case _ => None
  }

  /** The step unlocks a price that another process must be holding. */
  ghost predicate Steals(cfg: Config, w: World, a: Action) {
    Freed(cfg, w, a).Some? && !Unclaimed(w, a.proc, Freed(cfg, w, a).value)
  }

  // ---- steps outside the saga ------------------------------------------------------------------

  /** No administrator's call touches a locked price. */
  lemma LockedRowsStay(db: P.Db, call: P.Call)
    requires !call.Lock? && !call.Unlock?
    ensures var t' := P.Serve(db, call).0.table;
            && t'.Keys <= db.table.Keys + (if call.Create? then {call.id} else {})
            && (forall x :: x in db.table && db.table[x].locked ==> x in t' && t'[x] == db.table[x])
            && forall x :: x in t' && t'[x].locked ==> x in db.table && t'[x] == db.table[x]
  {
  }

  /** A step that leaves the locked prices and the processes alone. */
  lemma LockedRowsKeepInv(cfg: Config, w: World, w': World)
    requires Fits(cfg, w) && w'.procs == w.procs && w.used <= w'.used
    requires P.Sound(w'.prices.table) && w'.prices.table.Keys <= w'.used
    requires forall x :: x in w.prices.table && w.prices.table[x].locked ==>
               x in w'.prices.table && w'.prices.table[x] == w.prices.table[x]
    ensures Fits(cfg, w') && (Owned(w) ==> Owned(w'))
  {
    if Owned(w) {
      forall p, x | p in w'.procs && x in Holds(w'.procs[p]) ensures IsLockedBy(w'.prices.table, x, p) {
        assert IsLockedBy(w.prices.table, x, p);
      }
    }
  }

  lemma PublishKeepsInv(cfg: Config, w: World, o: Id, p: Id, started: bool)
    requires Fits(cfg, w)
    ensures var w' := ExecPublish(w, o, p, started); Fits(cfg, w') && (Owned(w) ==> Owned(w'))
  {
    var w' := ExecPublish(w, o, p, started);
    assert w'.prices == w.prices && w.used <= w'.used;
    if Owned(w) {
      forall q, x | q in w'.procs && x in Holds(w'.procs[q]) ensures IsLockedBy(w'.prices.table, x, q) {
        assert q in w.procs && w'.procs[q] == w.procs[q];
      }
    }
  }

  lemma OthersKeepInv(cfg: Config, w: World, a: Action)
    requires Fits(cfg, w) && !a.Task?
    ensures var w' := Exec(cfg, w, a); Fits(cfg, w') && (Owned(w) ==> Owned(w'))
  {
    var w' := Exec(cfg, w, a);
    match a
    case PriceAdmin(call) =>
      P.ServeKeepsSound(w.prices, call);
      if !call.Lock? && !call.Unlock? { LockedRowsStay(w.prices, call); }
      LockedRowsKeepInv(cfg, w, w');
    case Publish(o, p, started) => PublishKeepsInv(cfg, w, o, p, started);
    case _ =>
      OthersTouchNothing(cfg, w, a);
      LockedRowsKeepInv(cfg, w, w');
  }

  lemma OthersTouchNothing(cfg: Config, w: World, a: Action)
    requires !a.PriceAdmin? && !a.Publish? && !a.Task?
    ensures var w' := Exec(cfg, w, a);
            w'.prices == w.prices && w'.procs == w.procs && w.used <= w'.used && w'.worker == w.worker
  {
  }

  // ---- steps of the saga -----------------------------------------------------------------------

  /** What a step of process p does: it moves its own token, and changes at most the price x, as told. */
  ghost predicate Step(cfg: Config, w: World, w': World, p: Id, freed: Option<Id>) {
    && p in w.procs && p in w'.procs && w'.procs == w.procs[p := w'.procs[p]] && w'.used == w.used
    && w'.procs[p].priceIds == w.procs[p].priceIds && TokenFits(cfg, w'.procs[p])
    && P.Sound(w'.prices.table) && w'.prices.table.Keys == w.prices.table.Keys
    && (forall y :: y in w.prices.table && freed != Some(y) ==>
          w'.prices.table[y] == w.prices.table[y] || TakesFree(w, w', p, y))
    && (freed.Some? && freed.value in w.prices.table ==> !w'.prices.table[freed.value].locked)
    && Holds(w'.procs[p]) <= Holds(w.procs[p]) + (set y | y in w'.prices.table && IsLockedBy(w'.prices.table, y, p))
    && (freed.Some? ==> freed.value !in Holds(w'.procs[p]))
  }

  ghost predicate TakesFree(w: World, w': World, p: Id, y: Id)
    requires y in w.prices.table && y in w'.prices.table
  {
    !w.prices.table[y].locked && IsLockedBy(w'.prices.table, y, p)
  }

  /** p itself keeps what it must hold. */
  lemma OwnPricesStay(cfg: Config, w: World, w': World, p: Id, freed: Option<Id>, x: Id)
    requires Owned(w) && Step(cfg, w, w', p, freed) && x in Holds(w'.procs[p])
    ensures IsLockedBy(w'.prices.table, x, p)
  {
    assert x in Holds(w.procs[p]) ==> IsLockedBy(w.prices.table, x, p);
  }

  /** So does every other process, unless the step frees its price. */
  lemma OtherPricesStay(cfg: Config, w: World, w': World, p: Id, freed: Option<Id>, q: Id, x: Id)
    requires Owned(w) && Step(cfg, w, w', p, freed) && q in w.procs && q != p && x in Holds(w.procs[q])
             && freed != Some(x)
    ensures IsLockedBy(w'.prices.table, x, q)
  {
    assert IsLockedBy(w.prices.table, x, q);
  }

  lemma StepKeepsOwned(cfg: Config, w: World, w': World, p: Id, freed: Option<Id>)
    requires Owned(w) && Step(cfg, w, w', p, freed) && (freed.Some? ==> Unclaimed(w, p, freed.value))
    ensures Owned(w')
  {
    forall q, x | q in w'.procs && x in Holds(w'.procs[q]) ensures IsLockedBy(w'.prices.table, x, q) {
      if q == p { OwnPricesStay(cfg, w, w', p, freed, x); } else { OtherPricesStay(cfg, w, w', p, freed, q, x); }
    }
  }

  lemma TheftBreaksOwned(cfg: Config, w: World, w': World, p: Id, x: Id)
    requires Owned(w) && Step(cfg, w, w', p, Some(x)) && !Unclaimed(w, p, x)
    ensures !Owned(w')
  {
    var q :| q in w.procs && q != p && x in Holds(w.procs[q]);
    assert IsLockedBy(w.prices.table, x, q) && q in w'.procs && w'.procs[q] == w.procs[q];
    assert !IsLockedBy(w'.prices.table, x, q);
  }

  lemma FollowedFits(cfg: Config, proc: Proc, n: Node, t: Token)
    requires TokenFits(cfg, proc) && proc.token == At(n) && Agreement.Follows(cfg, n, t)
    ensures var proc' := proc.(token := t); TokenFits(cfg, proc') && Holds(proc') <= Holds(proc)
  {
    assert First(proc.priceIds, 0) == {};
  }

  lemma QueuedSteps(cfg: Config, w: World, p: Id, n: Node, net: Net, now: int)
    requires Fits(cfg, w) && p in w.procs && w.procs[p].token == At(n)
    ensures Step(cfg, w, ExecQueued(cfg, w, p, n, net, now), p, None)
  {
    Agreement.QueuedFollows(cfg, w, p, n, net, now);
    FollowedFits(cfg, w.procs[p], n, ExecQueued(cfg, w, p, n, net, now).procs[p].token);
  }

  lemma LockingSteps(cfg: Config, w: World, p: Id, i: nat, net: Net)
    requires Fits(cfg, w) && p in w.procs && w.procs[p].token == Locking(i)
    ensures Step(cfg, w, ExecLocking(w, p, i, net), p, None)
  {
    var ids := w.procs[p].priceIds;
    FirstNext(ids, i);
    assert First(ids, 0) == {};
    if i < |ids| { LockCallSteps(cfg, w, p, i, net); }
  }

  lemma LockCallSteps(cfg: Config, w: World, p: Id, i: nat, net: Net)
    requires Fits(cfg, w) && p in w.procs && w.procs[p].token == Locking(i) && i < |w.procs[p].priceIds|
    ensures Step(cfg, w, ExecLocking(w, p, i, net), p, None)
  {
    var ids, w' := w.procs[p].priceIds, ExecLocking(w, p, i, net);
    var (db, ok) := PW.LockCall(w.prices, ids[i], p, net);
    FirstNext(ids, i);
    assert First(ids, 0) == {};
    PW.LockCallEffect(w.prices, ids[i], p, net);
    assert w' == Move(w, p, if ok then Locking(i + 1) else RollingBack(i, 0)).(prices := db);
    LockTakesFree(w, w', p, ids[i]);
    if ok { assert IsLockedBy(db.table, ids[i], p); }
  }

  lemma LockTakesFree(w: World, w': World, p: Id, x: Id)
    requires P.Sound(w.prices.table)
    requires w'.prices.table == w.prices.table
             || (PW.Lockable(w.prices.table, x, p) && w'.prices.table == PW.LockAll(w.prices.table, {x}, p))
    ensures w'.prices.table.Keys == w.prices.table.Keys
    ensures forall y :: y in w.prices.table ==> w'.prices.table[y] == w.prices.table[y] || TakesFree(w, w', p, y)
  {
  }

  /** One unlock call: the price it reaches is free, the others are as before. */
  lemma UnlockCallSteps(cfg: Config, w: World, w': World, p: Id, x: Id, net: Net)
    requires Fits(cfg, w) && p in w.procs && p in w'.procs && w'.procs == w.procs[p := w'.procs[p]] && w'.used == w.used
    requires w'.prices == PW.UnlockCall(w.prices, x, net)
    requires w'.procs[p].priceIds == w.procs[p].priceIds && TokenFits(cfg, w'.procs[p])
    requires Holds(w'.procs[p]) <= Holds(w.procs[p]) && (net.Ran() ==> x !in Holds(w'.procs[p]))
    ensures Step(cfg, w, w', p, if net.Ran() then Some(x) else None)
  {
    PW.UnlockCallEffect(w.prices, x, net);
  }

  lemma RollbackSteps(cfg: Config, w: World, p: Id, n: nat, j: nat, net: Net)
    requires Fits(cfg, w) && p in w.procs && w.procs[p].token == RollingBack(n, j)
    ensures Step(cfg, w, ExecRollback(cfg, w, p, n, j, net), p,
                 if j < n && net.Ran() then Some(w.procs[p].priceIds[j]) else None)
  {
    var ids := w.procs[p].priceIds;
    FirstNext(ids, j);
    if j < n { UnlockCallSteps(cfg, w, ExecRollback(cfg, w, p, n, j, net), p, ids[j], net); }
  }

  lemma UnlockingSteps(cfg: Config, w: World, p: Id, j: nat, net: Net)
    requires Fits(cfg, w) && p in w.procs && w.procs[p].token == Unlocking(j)
    ensures Step(cfg, w, ExecUnlocking(w, p, j, net), p,
                 if j < |w.procs[p].priceIds| && net.Ran() then Some(w.procs[p].priceIds[j]) else None)
  {
    var ids := w.procs[p].priceIds;
    FirstNext(ids, j);
    if j < |ids| { UnlockCallSteps(cfg, w, ExecUnlocking(w, p, j, net), p, ids[j], net); }
  }

  lemma TaskSteps(cfg: Config, w: World, p: Id, net: Net, now: int)
    requires Fits(cfg, w) && p in w.procs && Allowed(cfg, w.procs[p], net)
    ensures Step(cfg, w, ExecTask(cfg, w, p, net, now), p, Freed(cfg, w, Task(p, net, now)))
  {
    match w.procs[p].token
    case At(n) => QueuedSteps(cfg, w, p, n, net, now);
    case Locking(i) => LockingSteps(cfg, w, p, i, net);
    case RollingBack(n, j) => RollbackSteps(cfg, w, p, n, j, net);
    case Unlocking(j) => UnlockingSteps(cfg, w, p, j, net);
    case Incident(_) => assert w.procs == w.procs[p := w.procs[p]];
  }

  lemma StepFits(cfg: Config, w: World, a: Action)
    requires Fits(cfg, w)
    ensures Fits(cfg, Exec(cfg, w, a))
  {
    if !a.Task? {
      OthersKeepInv(cfg, w, a);
    } else if a.proc in w.procs && Allowed(cfg, w.procs[a.proc], a.net) {
      TaskSteps(cfg, w, a.proc, a.net, a.now);
    }
  }

  lemma {:induction false} RunFits(cfg: Config, acts: seq<Action>)
    ensures Fits(cfg, Run(cfg, acts))
  {
    if acts != [] {
      RunFits(cfg, acts[..|acts| - 1]);
      StepFits(cfg, Run(cfg, acts[..|acts| - 1]), acts[|acts| - 1]);
    }
  }

  // ---- ownership is the absence of theft -----------------------------------------------------------

  /** Whatever the route, the faults and the number of workers: a step leaves every process in possession
      of what it must be holding if and only if it does not unlock what another process must be holding. */
  lemma OwnedUnlessStolen(cfg: Config, w: World, a: Action)
    requires Inv(cfg, w)
    ensures Fits(cfg, Exec(cfg, w, a))
    ensures Owned(Exec(cfg, w, a)) <==> !Steals(cfg, w, a)
  {
    if !a.Task? {
      OthersKeepInv(cfg, w, a);
    } else if a.proc in w.procs && Allowed(cfg, w.procs[a.proc], a.net) {
      var w', freed := Exec(cfg, w, a), Freed(cfg, w, a);
      TaskSteps(cfg, w, a.proc, a.net, a.now);
      if Steals(cfg, w, a) {
        TheftBreaksOwned(cfg, w, w', a.proc, freed.value);
      } else {
        StepKeepsOwned(cfg, w, w', a.proc, freed);
      }
    }
  }

  /** In every state of the run each process has what it must be holding. */
  ghost predicate AlwaysOwned(cfg: Config, acts: seq<Action>) {
    Owned(Run(cfg, acts)) && (acts == [] || AlwaysOwned(cfg, acts[..|acts| - 1]))
  }

  /** No step of the run takes a price away from its holder. */
  ghost predicate NoTheft(cfg: Config, acts: seq<Action>) {
    acts == [] || (NoTheft(cfg, acts[..|acts| - 1]) && !Steals(cfg, Run(cfg, acts[..|acts| - 1]), acts[|acts| - 1]))
  }

  /** Each process always has what it must be holding if and only if nothing is ever taken away. */
  lemma {:induction false} OwnershipIsNoTheft(cfg: Config, acts: seq<Action>)
    ensures AlwaysOwned(cfg, acts) <==> NoTheft(cfg, acts)
    ensures NoTheft(cfg, acts) ==> Inv(cfg, Run(cfg, acts))
  {
    if acts != [] {
      var front := acts[..|acts| - 1];
      OwnershipIsNoTheft(cfg, front);
      if NoTheft(cfg, front) { OwnedUnlessStolen(cfg, Run(cfg, front), acts[|acts| - 1]); }
    }
  }

  /** Two processes never have to hold the same price. */
  lemma OwnersApart(w: World, p: Id, x: Id)
    requires Owned(w) && p in w.procs && IsLockedBy(w.prices.table, x, p)
    ensures Unclaimed(w, p, x)
  {
    forall q | q in w.procs && q != p ensures x !in Holds(w.procs[q]) {
      assert x in Holds(w.procs[q]) ==> IsLockedBy(w.prices.table, x, q);
    }
  }
}

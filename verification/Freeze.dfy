/** Ownership over every run, and what follows from it: exclusion and frozen prices. */
module Freeze {
  import opened Common
  import opened SagaGraph
  import opened WorldModel
  import opened Ownership
  import P = Pricing
  import PW = PricingWorker
  import O = Offerings
  import Agreement
  import OneWorker

  /** Sagas of different offerings share no price. */
  ghost predicate DisjointSagas(w: World) {
    forall p, q :: p in w.procs && q in w.procs && w.procs[p].offering != w.procs[q].offering ==>
      Elems(w.procs[p].priceIds) !! Elems(w.procs[q].priceIds)
  }

  /** What makes the unconditional unlock harmless: the error flow of Lock Prices goes straight to
      Revert, or no two offerings are published with a common price. */
  ghost predicate Harmless(cfg: Config, w: World) { cfg.route == ToRevert || DisjointSagas(w) }

  /** Then no step takes a price away. */
  lemma HarmlessMeansNoTheft(cfg: Config, w: World, a: Action)
    requires Inv(cfg, w) && OneWorker.Inv(w) && Agreement.Inv(w) && Harmless(cfg, w)
    ensures !Steals(cfg, w, a)
  {
    if Steals(cfg, w, a) {
      OneWorker.OnlyFailedLockersSteal(cfg, w, a);
      var p, x := a.proc, Freed(cfg, w, a).value;
      var q :| q in w.procs && q != p && x in Holds(w.procs[q]);
      HeldIsListed(w.procs[q], x);
      AttachedApart(w, p, q);
      NothingShared(w, p, q, x);
    }
  }

  lemma HeldIsListed(proc: Proc, x: Id)
    requires x in Holds(proc)
    ensures x in proc.priceIds && Agreement.Attached(proc.token)
  {
  }

  lemma AttachedApart(w: World, p: Id, q: Id)
    requires Agreement.Inv(w) && p in w.procs && q in w.procs && p != q
    requires Agreement.Attached(w.procs[p].token) && Agreement.Attached(w.procs[q].token)
    ensures w.procs[p].offering != w.procs[q].offering
  {
  }

  lemma NothingShared(w: World, p: Id, q: Id, x: Id)
    requires DisjointSagas(w) && p in w.procs && q in w.procs && w.procs[p].offering != w.procs[q].offering
    ensures x !in w.procs[p].priceIds || x !in w.procs[q].priceIds
  {
    assert x in w.procs[p].priceIds ==> x in Elems(w.procs[p].priceIds);
  }

  // ---- processes persist -------------------------------------------------------------------------

  /** Still to give its prices up, or past that for good. */
  predicate Relinquished(proc: Proc) {
    match proc.token
    case At(n) => n == RevertToDraft || n == Failed || (n == UnlockPrices && !proc.locked)
    case Incident(n) => !PastLock(n)
    case RollingBack(_, _) => !proc.locked
    case Unlocking(_) => true
    case Locking(_) => false
  }

  /** A process never disappears, keeps its lists, and never regains possession once it gave it up. */
  ghost predicate Persists(w: World, w': World, p: Id) {
    p in w.procs ==>
      && p in w'.procs && w'.procs[p].offering == w.procs[p].offering && w'.procs[p].priceIds == w.procs[p].priceIds
      && (InPossession(w.procs[p]) ==> InPossession(w'.procs[p]) || Relinquished(w'.procs[p]))
      && (Relinquished(w.procs[p]) ==> Relinquished(w'.procs[p]))
      && (w.procs[p].token == At(Succeeded) || w.procs[p].token == Incident(ConfirmPublication) ==>
            w'.procs[p].token == w.procs[p].token)
  }

  /** The phase of the moving process: possession is lost once and for all. */
  ghost predicate PhaseKept(proc: Proc, proc': Proc) {
    && (InPossession(proc) ==> InPossession(proc') || Relinquished(proc'))
    && (Relinquished(proc) ==> Relinquished(proc'))
  }

  lemma QueuedKeepsPhase(cfg: Config, w: World, p: Id, n: Node, net: Net, now: int)
    requires p in w.procs && w.procs[p].token == At(n)
    ensures var w' := ExecQueued(cfg, w, p, n, net, now); p in w'.procs && PhaseKept(w.procs[p], w'.procs[p])
  {
  }

  lemma TaskKeepsPhase(cfg: Config, w: World, p: Id, net: Net, now: int)
    requires p in w.procs
    ensures var w' := ExecTask(cfg, w, p, net, now); p in w'.procs && PhaseKept(w.procs[p], w'.procs[p])
  {
    match w.procs[p].token
    case At(n) => QueuedKeepsPhase(cfg, w, p, n, net, now);
    case _ =>
  }

  lemma ExecPersists(cfg: Config, w: World, a: Action, p: Id)
    requires Agreement.Inv(w)
    ensures Persists(w, Exec(cfg, w, a), p)
  {
    if a.Task? {
      if a.proc in w.procs { TaskPersists(cfg, w, a.proc, a.net, a.now, p); }
    } else {
      OthersLeaveProcs(cfg, w, a, p);
    }
  }

  lemma OthersLeaveProcs(cfg: Config, w: World, a: Action, p: Id)
    requires w.procs.Keys <= w.used && !a.Task?
    ensures p in w.procs ==> p in Exec(cfg, w, a).procs && Exec(cfg, w, a).procs[p] == w.procs[p]
  {
  }

  lemma TaskPersists(cfg: Config, w: World, q: Id, net: Net, now: int, p: Id)
    requires Agreement.Inv(w) && q in w.procs
    ensures Persists(w, ExecTask(cfg, w, q, net, now), p)
  {
    Agreement.TaskAdvances(cfg, w, q, net, now);
    TaskKeepsPhase(cfg, w, q, net, now);
  }

  // ---- ownership over runs -------------------------------------------------------------------------

  lemma HarmlessBefore(cfg: Config, w: World, a: Action)
    requires Agreement.Inv(w) && Harmless(cfg, Exec(cfg, w, a))
    ensures Harmless(cfg, w)
  {
    if cfg.route != ToRevert {
      forall p, q | p in w.procs && q in w.procs && w.procs[p].offering != w.procs[q].offering
        ensures Elems(w.procs[p].priceIds) !! Elems(w.procs[q].priceIds)
      {
        ExecPersists(cfg, w, a, p);
        ExecPersists(cfg, w, a, q);
      }
    }
  }

  /** With the error flow of Lock Prices routed to Revert, or while sagas of different offerings share no
      price, nothing is ever taken away. */
  lemma {:induction false} HarmlessRunsStealNothing(cfg: Config, acts: seq<Action>)
    requires Harmless(cfg, Run(cfg, acts))
    ensures NoTheft(cfg, acts) && Inv(cfg, Run(cfg, acts)) && Agreement.Inv(Run(cfg, acts))
  {
    Agreement.RunKeepsInv(cfg, acts);
    if acts != [] {
      var front, a := acts[..|acts| - 1], acts[|acts| - 1];
      var w := Run(cfg, front);
      Agreement.RunKeepsInv(cfg, front);
      HarmlessBefore(cfg, w, a);
      HarmlessRunsStealNothing(cfg, front);
      OneWorker.RunKeepsInv(cfg, front);
      HarmlessMeansNoTheft(cfg, w, a);
      OwnedUnlessStolen(cfg, w, a);
    }
  }

  /** In every run in which no price is taken from its holder, a saga that completed Lock Prices and has not
      begun Unlock Prices, ended in success included, holds every price of its list under its own id. */
  lemma SagaHoldsItsPrices(cfg: Config, acts: seq<Action>, p: Id, x: Id)
    requires NoTheft(cfg, acts)
    requires p in Run(cfg, acts).procs && InPossession(Run(cfg, acts).procs[p]) && x in Run(cfg, acts).procs[p].priceIds
    ensures var t := Run(cfg, acts).prices.table; x in t && t[x].locked && t[x].lockedBy == Some(p)
  {
    OwnershipIsNoTheft(cfg, acts);
    assert x in Holds(Run(cfg, acts).procs[p]);
  }

  /** So two sagas that share a price are never both past Lock Prices. */
  lemma SharingSagasExclude(cfg: Config, acts: seq<Action>, p: Id, q: Id)
    requires NoTheft(cfg, acts)
    requires var w := Run(cfg, acts);
             p in w.procs && q in w.procs && p != q && InPossession(w.procs[p]) && InPossession(w.procs[q])
    ensures Elems(Run(cfg, acts).procs[p].priceIds) !! Elems(Run(cfg, acts).procs[q].priceIds)
  {
    OwnershipIsNoTheft(cfg, acts);
    var w := Run(cfg, acts);
    assert Holds(w.procs[q]) == Elems(w.procs[q].priceIds);
    forall x | x in w.procs[p].priceIds ensures x !in w.procs[q].priceIds {
      assert x in Holds(w.procs[p]);
      OwnersApart(w, p, x);
    }
  }

  // ---- frozen prices ---------------------------------------------------------------------------------

  /** Whatever one step does, a price locked before it still exists after it, with the same content. */
  lemma LockedPriceSurvives(cfg: Config, w: World, a: Action, x: Id)
    requires P.Sound(w.prices.table) && x in w.prices.table && w.prices.table[x].locked
    ensures SameContent(w.prices.table, Exec(cfg, w, a).prices.table, x)
  {
    if a.Task? && a.proc in w.procs { TaskKeepsContents(cfg, w, a.proc, a.net, a.now, x); }
  }

  lemma TaskKeepsContents(cfg: Config, w: World, p: Id, net: Net, now: int, x: Id)
    requires P.Sound(w.prices.table) && p in w.procs && x in w.prices.table
    ensures SameContent(w.prices.table, ExecTask(cfg, w, p, net, now).prices.table, x)
  {
    var ids := w.procs[p].priceIds;
    match w.procs[p].token
    case At(n) => QueuedKeepsPrices(cfg, w, p, n, net, now);
    case Locking(i) => if i < |ids| { LockKeepsContent(w.prices, ids[i], p, net, x); }
    case RollingBack(n, j) => if j < |ids| { UnlockKeepsContent(w.prices, ids[j], net, x); }
    case Unlocking(j) => if j < |ids| { UnlockKeepsContent(w.prices, ids[j], net, x); }
    case Incident(_) =>
  }

  ghost predicate SameContent(t: P.Table, t': P.Table, x: Id) {
    x in t ==> x in t' && P.Content(t'[x]) == P.Content(t[x])
  }

  lemma LockKeepsContent(db: P.Db, y: Id, saga: Id, net: Net, x: Id)
    requires P.Sound(db.table)
    ensures SameContent(db.table, PW.LockCall(db, y, saga, net).0.table, x)
  {
  }

  lemma UnlockKeepsContent(db: P.Db, y: Id, net: Net, x: Id)
    requires P.Sound(db.table)
    ensures SameContent(db.table, PW.UnlockCall(db, y, net).table, x)
  {
  }

  lemma QueuedKeepsPrices(cfg: Config, w: World, p: Id, n: Node, net: Net, now: int)
    requires p in w.procs
    ensures ExecQueued(cfg, w, p, n, net, now).prices == w.prices
  {
  }

  ghost predicate Possesses(w: World, p: Id, x: Id) {
    p in w.procs && InPossession(w.procs[p]) && x in w.procs[p].priceIds
  }

  /** While no price is taken from its holder: from any state in which saga p is in possession to any later
      one in which it still is, none of its prices was changed or deleted. */
  lemma PossessedPricesAreFrozen(cfg: Config, acts: seq<Action>, more: seq<Action>, p: Id, x: Id)
    requires NoTheft(cfg, acts + more)
    requires var w, w' := Run(cfg, acts), Run(cfg, acts + more);
             Possesses(w, p, x) && p in w'.procs && InPossession(w'.procs[p])
    ensures var w, w' := Run(cfg, acts), Run(cfg, acts + more); FrozenFor(w, w', p, x) && Possesses(w', p, x)
  {
    FrozenUpTo(cfg, acts, acts + more, p, x);
  }

  lemma {:induction false} FrozenUpTo(cfg: Config, acts: seq<Action>, later: seq<Action>, p: Id, x: Id)
    requires acts <= later && NoTheft(cfg, later) && Possesses(Run(cfg, acts), p, x)
    requires p in Run(cfg, later).procs && InPossession(Run(cfg, later).procs[p])
    ensures FrozenFor(Run(cfg, acts), Run(cfg, later), p, x) && Possesses(Run(cfg, later), p, x)
  {
    if acts == later {
      SagaHoldsItsPrices(cfg, acts, p, x);
    } else {
      var front, a := later[..|later| - 1], later[|later| - 1];
      assert acts + front[|acts|..] == front && front + [a] == later;
      PossessionOrNot(cfg, acts, front[|acts|..], p);
      PossessedBefore(cfg, front, a, p);
      FrozenUpTo(cfg, acts, front, p, x);
      PossessedPriceSurvives(cfg, front, a, p, x);
    }
  }

  /** A saga that is in possession after a step, and was in possession or past it before, was in possession. */
  lemma PossessedBefore(cfg: Config, acts: seq<Action>, a: Action, p: Id)
    requires var w := Run(cfg, acts); p in w.procs && (InPossession(w.procs[p]) || Relinquished(w.procs[p]))
    requires var w' := Run(cfg, acts + [a]); p in w'.procs && InPossession(w'.procs[p])
    ensures InPossession(Run(cfg, acts).procs[p])
  {
    assert (acts + [a])[..|acts + [a]| - 1] == acts;
    Agreement.RunKeepsInv(cfg, acts);
    ExecPersists(cfg, Run(cfg, acts), a, p);
  }

  lemma PossessedPriceSurvives(cfg: Config, acts: seq<Action>, a: Action, p: Id, x: Id)
    requires NoTheft(cfg, acts + [a])
    requires var w, w' := Run(cfg, acts), Run(cfg, acts + [a]);
             Possesses(w, p, x) && p in w'.procs && InPossession(w'.procs[p])
    ensures var w, w' := Run(cfg, acts), Run(cfg, acts + [a]); FrozenFor(w, w', p, x) && Possesses(w', p, x)
  {
    assert (acts + [a])[..|acts + [a]| - 1] == acts;
    Agreement.RunKeepsInv(cfg, acts);
    ExecPersists(cfg, Run(cfg, acts), a, p);
    SagaHoldsItsPrices(cfg, acts, p, x);
    RunFits(cfg, acts);
    LockedPriceSurvives(cfg, Run(cfg, acts), a, x);
    SagaHoldsItsPrices(cfg, acts + [a], p, x);
  }

  /** A saga in possession later either still is, or has given its prices up for good. */
  lemma {:induction false} PossessionOrNot(cfg: Config, acts: seq<Action>, more: seq<Action>, p: Id)
    requires p in Run(cfg, acts).procs && InPossession(Run(cfg, acts).procs[p])
    ensures var w, w' := Run(cfg, acts), Run(cfg, acts + more);
            && p in w'.procs && w'.procs[p].priceIds == w.procs[p].priceIds
               && w'.procs[p].offering == w.procs[p].offering
            && (InPossession(w'.procs[p]) || Relinquished(w'.procs[p]))
            && (w.procs[p].token == At(Succeeded) || w.procs[p].token == Incident(ConfirmPublication) ==>
                  w'.procs[p].token == w.procs[p].token)
  {
    if more == [] {
      assert acts + more == acts;
    } else {
      var front := more[..|more| - 1];
      assert (acts + more)[..|acts + more| - 1] == acts + front;
      PossessionOrNot(cfg, acts, front, p);
      Agreement.RunKeepsInv(cfg, acts + front);
      ExecPersists(cfg, Run(cfg, acts + front), more[|more| - 1], p);
    }
  }

  /** A live offering has a process that confirmed it and still holds exactly its prices. */
  lemma ConfirmerOf(cfg: Config, acts: seq<Action>, o: Id) returns (p: Id)
    requires o in Run(cfg, acts).offerings.table && O.Live(Run(cfg, acts).offerings.table[o])
    ensures var w := Run(cfg, acts);
            && Agreement.ConfirmedBy(w, o, p) && InPossession(w.procs[p])
            && w.offerings.table[o].content.priceIds == w.procs[p].priceIds
  {
    var w := Run(cfg, acts);
    Agreement.RunKeepsInv(cfg, acts);
    p :| Agreement.ConfirmedBy(w, o, p);
    assert Agreement.Agrees(w, p);
  }

  /** While no price is taken from its holder, a published or retired offering stays so, and all its prices
      exist, are locked by the one saga that confirmed it, and keep their content. */
  lemma PublishedPricesAreFrozen(cfg: Config, acts: seq<Action>, more: seq<Action>, o: Id) returns (p: Id)
    requires NoTheft(cfg, acts + more)
    requires o in Run(cfg, acts).offerings.table && O.Live(Run(cfg, acts).offerings.table[o])
    ensures var w, w' := Run(cfg, acts), Run(cfg, acts + more);
            && p in w.procs && w.procs[p].offering == o
            && o in w'.offerings.table && O.Live(w'.offerings.table[o])
            && w'.offerings.table[o].content.priceIds == w.offerings.table[o].content.priceIds
            && forall x :: x in w.offerings.table[o].content.priceIds ==> FrozenFor(w, w', p, x)
  {
    p := ConfirmerOf(cfg, acts, o);
    PossessionOrNot(cfg, acts, more, p);
    LiveStays(cfg, acts, more, o);
    Agreement.RunKeepsInv(cfg, acts + more);
    assert Agreement.Agrees(Run(cfg, acts + more), p);
    forall x | x in Run(cfg, acts).procs[p].priceIds ensures FrozenFor(Run(cfg, acts), Run(cfg, acts + more), p, x) {
      PossessedPricesAreFrozen(cfg, acts, more, p, x);
    }
  }

  ghost predicate FrozenFor(w: World, w': World, p: Id, x: Id) {
    && x in w.prices.table && w.prices.table[x].lockedBy == Some(p)
    && x in w'.prices.table && w'.prices.table[x].lockedBy == Some(p)
    && P.Content(w'.prices.table[x]) == P.Content(w.prices.table[x])
  }

  lemma {:induction false} LiveStays(cfg: Config, acts: seq<Action>, more: seq<Action>, o: Id)
    requires o in Run(cfg, acts).offerings.table && O.Live(Run(cfg, acts).offerings.table[o])
    ensures var w' := Run(cfg, acts + more); o in w'.offerings.table && O.Live(w'.offerings.table[o])
  {
    if more == [] {
      assert acts + more == acts;
    } else {
      var front := more[..|more| - 1];
      assert (acts + more)[..|acts + more| - 1] == acts + front;
      LiveStays(cfg, acts, front, o);
      Agreement.RunKeepsInv(cfg, acts + front);
      Agreement.LiveSurvives(cfg, Run(cfg, acts + front), more[|more| - 1], o);
    }
  }
}

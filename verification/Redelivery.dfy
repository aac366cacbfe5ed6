/** What happens when Camunda hands out a task again although its handler already ran. */
module Redelivery {
  import opened Common
  import opened SagaGraph
  import opened WorldModel
  import opened Ownership
  import P = Pricing
  import PW = PricingWorker
  import O = Offerings
  import Agreement
  import SagaAlone
  import StoreAgrees

  // ---- the two pricing handlers ---------------------------------------------------------------------

  function AllDelivered(): nat -> Net { k => Delivered }

  /** Locking what the saga already holds changes nothing, and adds no event. */
  lemma {:induction false} LockingAgainIsIdle(db: P.Db, ids: seq<Id>, saga: Id, i: nat)
    requires i <= |ids|
    requires forall x :: x in ids ==> x in db.table && db.table[x].locked && db.table[x].lockedBy == Some(saga)
    ensures PW.LockLoop(db, ids, saga, AllDelivered(), i) == (db, |ids|)
    decreases |ids| - i
  {
    if i < |ids| { LockingAgainIsIdle(db, ids, saga, i + 1); }
  }

  lemma {:induction false} UnlockingAgainIsIdle(db: P.Db, ids: seq<Id>, j: nat)
    requires j <= |ids| && forall x :: x in ids && x in db.table ==> !db.table[x].locked
    ensures PW.UnlockLoop(db, ids, AllDelivered(), j, |ids|) == (db, true)
    decreases |ids| - j
  {
    if j < |ids| { UnlockingAgainIsIdle(db, ids, j + 1); }
  }

  /** A lock handler that succeeded can run again: same state, same outcome, no new event. */
  lemma LockHandlerTwice(db: P.Db, ids: seq<Id>, saga: Id)
    requires P.Sound(db.table) && PW.HoldsNothing(db.table, saga)
    ensures var (once, out) := PW.LockHandler(db, ids, saga, AllDelivered(), AllDelivered());
            var (twice, out') := PW.LockHandler(once, ids, saga, AllDelivered(), AllDelivered());
            out' == out && twice.table == once.table && (out == Completed ==> twice == once)
  {
    var (once, out) := PW.LockHandler(db, ids, saga, AllDelivered(), AllDelivered());
    PW.BatchLockAllOrNothing(db, ids, saga, AllDelivered(), AllDelivered());
    PW.QuietBatchLockAllOrNothing(db, ids, saga, AllDelivered(), AllDelivered());
    if out == Completed {
      HeldAfterLocking(db, once, ids, saga);
      LockingAgainIsIdle(once, ids, saga, 0);
    } else {
      PW.BatchLockAllOrNothing(once, ids, saga, AllDelivered(), AllDelivered());
      PW.QuietBatchLockAllOrNothing(once, ids, saga, AllDelivered(), AllDelivered());
    }
  }

  lemma HeldAfterLocking(db: P.Db, once: P.Db, ids: seq<Id>, saga: Id)
    requires once.table == PW.LockAll(db.table, Elems(ids), saga) && forall x :: x in ids ==> x in db.table
    ensures forall x :: x in ids ==> x in once.table && once.table[x].locked && once.table[x].lockedBy == Some(saga)
  {
  }

  /** An unlock handler can always run again: same state, no new event. */
  lemma UnlockHandlerTwice(db: P.Db, ids: seq<Id>)
    requires P.Sound(db.table)
    ensures var once := PW.UnlockHandler(db, ids, AllDelivered()).0;
            PW.UnlockHandler(once, ids, AllDelivered()) == (once, Completed)
  {
    PW.BatchUnlockFreesAnyHolder(db, ids, AllDelivered());
    UnlockingAgainIsIdle(PW.UnlockHandler(db, ids, AllDelivered()).0, ids, 0);
  }

  // ---- the one-call tasks -----------------------------------------------------------------------------

  predicate OneCall(n: Node) {
    n == ValidateSpecs || n == CreateStoreEntry || n == ConfirmPublication || n == DeleteStoreEntry
      || n == RevertToDraft
  }

  /** Task n of process p is run, handed out again and run once more. */
  ghost function Twice(cfg: Config, w: World, p: Id, n: Node, now: int, later: int): World
    requires p in w.procs && w.procs[p].token == At(n) && OneCall(n)
  {
    var once := ExecQueued(cfg, w, p, n, Delivered, now);
    ExecQueued(cfg, Move(once, p, At(n)), p, n, Delivered, later)
  }

  lemma ValidateTwice(cfg: Config, w: World, p: Id, now: int, later: int)
    requires p in w.procs && w.procs[p].token == At(ValidateSpecs)
    ensures Twice(cfg, w, p, ValidateSpecs, now, later) == ExecQueued(cfg, w, p, ValidateSpecs, Delivered, now)
  {
  }

  lemma CreateTwice(cfg: Config, w: World, p: Id, now: int, later: int)
    requires p in w.procs && w.procs[p].token == At(CreateStoreEntry)
    ensures Twice(cfg, w, p, CreateStoreEntry, now, later) == ExecQueued(cfg, w, p, CreateStoreEntry, Delivered, now)
  {
  }

  lemma DeleteTwice(cfg: Config, w: World, p: Id, now: int, later: int)
    requires p in w.procs && w.procs[p].token == At(DeleteStoreEntry)
    ensures Twice(cfg, w, p, DeleteStoreEntry, now, later) == ExecQueued(cfg, w, p, DeleteStoreEntry, Delivered, now)
  {
  }

  lemma RevertTwice(cfg: Config, w: World, p: Id, now: int, later: int)
    requires p in w.procs && w.procs[p].token == At(RevertToDraft)
    ensures Twice(cfg, w, p, RevertToDraft, now, later) == ExecQueued(cfg, w, p, RevertToDraft, Delivered, now)
  {
  }

  /** Every one-call task but Confirm Publication can be run twice in a row with the effect of once. */
  lemma RedeliveredTaskIsIdempotent(cfg: Config, w: World, p: Id, n: Node, now: int, later: int)
    requires p in w.procs && w.procs[p].token == At(n) && OneCall(n) && n != ConfirmPublication
    ensures Twice(cfg, w, p, n, now, later) == ExecQueued(cfg, w, p, n, Delivered, now)
  {
    match n
    case ValidateSpecs => ValidateTwice(cfg, w, p, now, later);
    case CreateStoreEntry => CreateTwice(cfg, w, p, now, later);
    case DeleteStoreEntry => DeleteTwice(cfg, w, p, now, later);
    case RevertToDraft => RevertTwice(cfg, w, p, now, later);
  }

  /** A confirmation that succeeded is refused the second time: nothing changes but the token, which is
      sent into compensation. */
  lemma RedeliveredConfirmStartsCompensation(cfg: Config, w: World, p: Id, now: int, later: int)
    requires Agreement.Inv(w) && p in w.procs && w.procs[p].token == At(ConfirmPublication)
    ensures var once, twice := ExecQueued(cfg, w, p, ConfirmPublication, Delivered, now),
            Twice(cfg, w, p, ConfirmPublication, now, later);
            && once.procs[p].token == At(Succeeded)
            && twice == Move(once, p, At(DeleteStoreEntry))
            && w.procs[p].offering in twice.offerings.table
               && twice.offerings.table[w.procs[p].offering].status == O.PUBLISHED
  {
  }

  // ---- where a repeated confirmation leads --------------------------------------------------------------

  ghost predicate Unlocked(t: P.Table, xs: set<Id>) { forall x :: x in xs && x in t ==> !t[x].locked }

  /** Compensation under way for an offering that is PUBLISHED. */
  ghost predicate Undoing(w: World, p: Id) {
    && p in w.procs
    && var proc := w.procs[p];
       && proc.offering in w.offerings.table && w.offerings.table[proc.offering].status == O.PUBLISHED
       && (proc.token != At(DeleteStoreEntry) ==> proc.offering !in w.docs)
       && match proc.token
          case At(n) => n == DeleteStoreEntry || n == UnlockPrices
                        || ((n == RevertToDraft || n == Failed) && Unlocked(w.prices.table, Elems(proc.priceIds)))
          case Unlocking(j) => Unlocked(w.prices.table, First(proc.priceIds, j))
          case _ => false
  }

  lemma QueuedUndoes(cfg: Config, w: World, p: Id, n: Node, now: int)
    requires Undoing(w, p) && w.procs[p].token == At(n)
    ensures Undoing(ExecQueued(cfg, w, p, n, Delivered, now), p)
  {
  }

  lemma UnlockingUndoes(w: World, p: Id, j: nat)
    requires Undoing(w, p) && w.procs[p].token == Unlocking(j) && P.Sound(w.prices.table)
    ensures Undoing(ExecUnlocking(w, p, j, Delivered), p)
  {
  }

  lemma StepUndoes(cfg: Config, w: World, p: Id, now: int)
    requires Undoing(w, p) && P.Sound(w.prices.table)
    ensures var w' := ExecTask(cfg, w, p, Delivered, now); Undoing(w', p) && P.Sound(w'.prices.table)
  {
    StoreAgrees.TaskKeepsPricesSound(cfg, w, p, Delivered, now);
    match w.procs[p].token
    case At(n) => QueuedUndoes(cfg, w, p, n, now);
    case Unlocking(j) => UnlockingUndoes(w, p, j);
  }

  ghost predicate AllArrive(acts: seq<Action>) {
    forall i :: 0 <= i < |acts| ==> acts[i].Task? && acts[i].net == Delivered
  }

  lemma {:induction false} SoloUndoes(cfg: Config, w: World, acts: seq<Action>, p: Id)
    requires SagaAlone.Ready(cfg, w, p) && SagaAlone.Solo(cfg, w, acts, p) && AllArrive(acts)
    requires Undoing(w, p) && P.Sound(w.prices.table)
    ensures Undoing(RunFrom(cfg, w, acts), p) && P.Sound(RunFrom(cfg, w, acts).prices.table)
  {
    if acts != [] {
      var front, a := acts[..|acts| - 1], acts[|acts| - 1];
      SoloUndoes(cfg, w, front, p);
      StepUndoes(cfg, RunFrom(cfg, w, front), p, a.now);
    }
  }

  /** A confirmation handed out twice undoes the publication without taking it back: left alone, with its
      calls delivered, the saga ends in failure with the offering PUBLISHED, without a document, and its prices
      unlocked. */
  lemma RepeatedConfirmUndoesPublication(cfg: Config, acts: seq<Action>, more: seq<Action>, p: Id, now: int, later: int)
    requires Run(cfg, acts).worker == None && AllArrive(more)
    requires p in Run(cfg, acts).procs && Run(cfg, acts).procs[p].token == At(ConfirmPublication)
    requires var w := Twice(cfg, Run(cfg, acts), p, ConfirmPublication, now, later);
             SagaAlone.Solo(cfg, w, more, p) && |more| >= |Run(cfg, acts).procs[p].priceIds| + 4
    ensures var w' := RunFrom(cfg, Twice(cfg, Run(cfg, acts), p, ConfirmPublication, now, later), more);
            var o := Run(cfg, acts).procs[p].offering;
            && p in w'.procs && w'.procs[p].token == At(Failed)
            && o in w'.offerings.table && w'.offerings.table[o].status == O.PUBLISHED && o !in w'.docs
            && Unlocked(w'.prices.table, Elems(Run(cfg, acts).procs[p].priceIds))
  {
    RunFits(cfg, acts);
    Agreement.RunKeepsInv(cfg, acts);
    UndoingStarts(cfg, Run(cfg, acts), p, now, later);
    UndoingEnds(cfg, Twice(cfg, Run(cfg, acts), p, ConfirmPublication, now, later), more, p);
  }

  lemma UndoingEnds(cfg: Config, w: World, more: seq<Action>, p: Id)
    requires SagaAlone.Ready(cfg, w, p) && Undoing(w, p) && P.Sound(w.prices.table) && AllArrive(more)
    requires w.procs[p].token == At(DeleteStoreEntry)
    requires SagaAlone.Solo(cfg, w, more, p) && |more| >= |w.procs[p].priceIds| + 4
    ensures var w', o := RunFrom(cfg, w, more), w.procs[p].offering;
            && p in w'.procs && w'.procs[p].token == At(Failed)
            && o in w'.offerings.table && w'.offerings.table[o].status == O.PUBLISHED && o !in w'.docs
            && Unlocked(w'.prices.table, Elems(w.procs[p].priceIds))
  {
    SoloUndoes(cfg, w, more, p);
    SagaAlone.SoloEnds(cfg, w, more, p);
  }

  lemma UndoingStarts(cfg: Config, w: World, p: Id, now: int, later: int)
    requires Fits(cfg, w) && Agreement.Inv(w) && w.worker == None
    requires p in w.procs && w.procs[p].token == At(ConfirmPublication)
    ensures var w' := Twice(cfg, w, p, ConfirmPublication, now, later);
            && Undoing(w', p) && SagaAlone.Ready(cfg, w', p) && P.Sound(w'.prices.table)
            && w'.procs[p] == w.procs[p].(token := At(DeleteStoreEntry))
  {
    RedeliveredConfirmStartsCompensation(cfg, w, p, now, later);
    TwiceKeepsRest(cfg, w, p, now, later);
    assert TokenFits(cfg, w.procs[p]);
  }

  lemma TwiceKeepsRest(cfg: Config, w: World, p: Id, now: int, later: int)
    requires p in w.procs && w.procs[p].token == At(ConfirmPublication)
    ensures var w' := Twice(cfg, w, p, ConfirmPublication, now, later);
            && w'.prices == w.prices && w'.worker == w.worker && p in w'.procs
            && w'.procs[p] == w.procs[p].(token := w'.procs[p].token)
  {
  }
}

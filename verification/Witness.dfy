/** Concrete runs that show which assumptions the general results need. */
module Witness {
  import opened Common
  import opened SagaGraph
  import opened WorldModel
  import P = Pricing
  import O = Offerings
  import S = Specifications
  import C = Characteristics
  import CharCache
  import DeliveredSaga
  import Ownership
  import Freeze
  import OneWorker
  import SagaAlone
  import St = Store
  import Visibility

  const COLOUR := C.Characteristic("colour", "red", "none")
  const PHONE := S.Specification("phone", [1])
  const MONTHLY := P.PriceIn("monthly", 100, "month", P.USD)
  const PLAN := O.OfferingIn("plan", None, [2], [3], ["web"])

  /** A faultless environment with the error flow of Lock Prices as declared. */
  const DECLARED := Config(ToUnlock, false, false, false, false)

  lemma Then(cfg: Config, acts: seq<Action>, a: Action)
    ensures Run(cfg, acts + [a]) == Exec(cfg, Run(cfg, acts), a)
  {
  }

  // ---- a catalogue with one price and two offerings that list it ------------------------------

  /** Characteristic 1 exists and is in the specification service's cache. */
  lemma CharacteristicCached(cfg: Config) returns (acts: seq<Action>)
    ensures var w := Run(cfg, acts);
            && CacheNow(w) == map[1 := "colour"] && w.specs == S.EMPTY && w.prices == P.EMPTY && w.offerings == O.EMPTY
            && w.procs == map[] && w.worker == None && w.used == {1} && w.docs == map[]
            && w.read.offerings == 0
  {
    var a, b := CharAdmin(C.Create(1, COLOUR)), SyncCache;
    acts := [a] + [b];
    assert [] + [a] == [a];
    Then(cfg, [], a);
    Then(cfg, [a], b);
    var es := Run(cfg, acts).chars.outbox;
    assert es == [C.Created(1, COLOUR)] && es[..1] == es && es[..0] == [];
    assert CharCache.ApplyAll(map[], es) == CharCache.Apply(CharCache.ApplyAll(map[], es[..0]), es[0]);
    assert Run(cfg, acts).cacheAt == 1;
  }

  /** The catalogue: specification 2 and price 3. */
  ghost predicate Stocked(w: World) {
    && w.specs.table.Keys == {2} && w.prices.table == map[3 := P.Priced(MONTHLY, false, None)]
    && w.procs == map[] && w.worker == None && w.docs == map[] && w.read.offerings == 0
  }

  lemma CatalogueStocked(cfg: Config) returns (acts: seq<Action>)
    ensures var w := Run(cfg, acts); Stocked(w) && w.offerings == O.EMPTY && w.used == {1, 2, 3}
  {
    var acts0 := CharacteristicCached(cfg);
    var a, b := SpecAdmin(S.Create(2, PHONE)), PriceAdmin(P.Create(3, MONTHLY));
    acts := (acts0 + [a]) + [b];
    Then(cfg, acts0, a);
    Then(cfg, acts0 + [a], b);
  }

  /** Draft offerings 4 and 5 with the same specification and the same price. */
  lemma OfferingsDrafted(cfg: Config) returns (acts: seq<Action>)
    ensures var w := Run(cfg, acts);
            && Stocked(w) && w.used == {1, 2, 3, 4, 5}
            && w.offerings.table == map[4 := O.Offering(PLAN, O.DRAFT, None, None),
               5 := O.Offering(PLAN, O.DRAFT, None, None)]
  {
    var acts0 := CatalogueStocked(cfg);
    var a, b := CreateOffering(4, PLAN), CreateOffering(5, PLAN);
    acts := (acts0 + [a]) + [b];
    Then(cfg, acts0, a);
    Then(cfg, acts0 + [a], b);
  }

  ghost predicate Publishing(w: World) {
    w.specs.table.Keys == {2} && w.docs == map[] && 4 in w.offerings.table
      && w.offerings.table[4] == O.Offering(PLAN, O.PUBLISHING, None, None)
  }

  /** Both are being published, by processes 6 and 7. */
  lemma BothStarted(cfg: Config) returns (acts: seq<Action>)
    ensures var w := Run(cfg, acts);
            && w.procs == map[6 := Proc(4, [2], [3], At(LockPrices), false),
               7 := Proc(5, [2], [3], At(LockPrices), false)]
            && w.worker == None && w.prices.table == map[3 := P.Priced(MONTHLY, false, None)] && Publishing(w)
  {
    var acts0 := OfferingsDrafted(cfg);
    var a, b := Publish(4, 6, true), Publish(5, 7, true);
    acts := (acts0 + [a]) + [b];
    Then(cfg, acts0, a);
    Then(cfg, acts0 + [a], b);
  }

  /** Process 6 completes Lock Prices. */
  lemma FirstLocks(cfg: Config) returns (acts: seq<Action>)
    ensures var w := Run(cfg, acts);
            && w.procs == map[6 := Proc(4, [2], [3], At(ValidateSpecs), true),
               7 := Proc(5, [2], [3], At(LockPrices), false)]
            && w.worker == None && 3 in w.prices.table && w.prices.table[3].lockedBy == Some(6)
            && Publishing(w)
  {
    var acts0 := BothStarted(cfg);
    var a := Task(6, Delivered, 0);
    var acts1, acts2 := acts0 + [a], (acts0 + [a]) + [a];
    acts := acts2 + [a];
    Then(cfg, acts0, a);
    assert Run(cfg, acts1).procs[6].token == Locking(0) && Publishing(Run(cfg, acts1));
    Then(cfg, acts1, a);
    assert Run(cfg, acts2).procs[6].token == Locking(1) && Publishing(Run(cfg, acts2));
    Then(cfg, acts2, a);
  }

  // ---- the general result needs disjoint price lists ---------------------------------------------

  /** With the declared flow a run without a single fault reaches a state in which saga 6 is between
      Lock Prices and Unlock Prices and its price is unlocked: ownership needs disjoint price lists. */
  lemma DeclaredFlowBreaksOwnership() returns (acts: seq<Action>)
    ensures var w := Run(DECLARED, acts);
            && 6 in w.procs && Ownership.InPossession(w.procs[6]) && w.procs[6].priceIds == [3]
            && 3 in w.prices.table && !w.prices.table[3].locked
            && !Freeze.DisjointSagas(w)
  {
    var acts0 := FirstLocks(DECLARED);
    var w0 := Run(DECLARED, acts0);
    assert w0.procs[7].priceIds == [3] && 3 in w0.procs[7].priceIds;
    DeliveredSaga.StepsAreSolo(DECLARED, w0, 7, 13);
    SagaAlone.SharedPriceIsTakenAway(DECLARED, acts0, DeliveredSaga.Steps(7, 13), 6, 7, 3);
    acts := acts0 + DeliveredSaga.Steps(7, 13);
    SagaAlone.AloneSagaOutcome(DECLARED, acts0, DeliveredSaga.Steps(7, 13), 7);
    RunSplits(DECLARED, INIT, acts0, DeliveredSaga.Steps(7, 13));
    SagaAlone.SoloEnds(DECLARED, w0, DeliveredSaga.Steps(7, 13), 7);
    var w := Run(DECLARED, acts);
    assert w.procs[7].offering == 5 && w.procs[7].priceIds == [3] && 3 in w.procs[7].priceIds
      && 3 in w.procs[6].priceIds;
    assert 3 in Elems(w.procs[6].priceIds) * Elems(w.procs[7].priceIds);
  }

  // ---- what lost replies and silent failures do -----------------------------------------------------

  /** The lock request of process 6 runs, its reply is lost, and the handler turns to its rollback. */
  lemma LockReplyLost(cfg: Config) returns (acts: seq<Action>)
    requires cfg.lostLockReplies
    ensures var w := Run(cfg, acts);
            && 6 in w.procs && w.procs[6] == Proc(4, [2], [3], RollingBack(0, 0), false)
            && 3 in w.prices.table && w.prices.table[3].locked && w.prices.table[3].lockedBy == Some(6)
  {
    var acts0 := BothStarted(cfg);
    var a, b := Task(6, Delivered, 0), Task(6, ReplyLost, 0);
    acts := (acts0 + [a]) + [b];
    Then(cfg, acts0, a);
    Then(cfg, acts0 + [a], b);
  }

  /** With the error flow routed to Revert, one lock request whose reply is lost leaves a failed saga
      holding a price, and whatever happens afterwards the price stays locked by it. */
  lemma LostReplyLeaksPrice() returns (cfg: Config, acts: seq<Action>)
    ensures cfg == Config(ToRevert, false, false, true, false)
    ensures forall more: seq<Action> :: OneWorker.Leaked(Run(cfg, acts + more), 6, 3)
  {
    cfg := Config(ToRevert, false, false, true, false);
    var acts0 := LockReplyLost(cfg);
    var a := Task(6, Delivered, 0);
    Then(cfg, acts0, a);
    Then(cfg, acts0 + [a], a);
    acts := (acts0 + [a]) + [a];
    forall more: seq<Action> ensures OneWorker.Leaked(Run(cfg, acts + more), 6, 3) {
      OneWorker.LeakedLockStays(cfg, acts, more, 6, 3);
    }
  }

  /** Process 6 has its specifications validated and its offering stored. */
  lemma EntryCreated(cfg: Config) returns (acts: seq<Action>)
    ensures var w := Run(cfg, acts);
            && 6 in w.procs && w.procs[6] == Proc(4, [2], [3], At(ConfirmPublication), true) && w.worker == None
            && 4 in w.docs && 4 in w.offerings.table && w.offerings.table[4].status == O.PUBLISHING
  {
    var acts0 := FirstLocks(cfg);
    var a := Task(6, Delivered, 0);
    acts := (acts0 + [a]) + [a];
    Then(cfg, acts0, a);
    assert Run(cfg, acts0 + [a]) == Run(cfg, acts0).(procs := Run(cfg, acts0 + [a]).procs);
    assert Run(cfg, acts0 + [a]).procs[6] == Proc(4, [2], [3], At(CreateStoreEntry), true);
    Then(cfg, acts0 + [a], a);
  }

  /** Its confirmation is refused. */
  lemma ConfirmRefused(cfg: Config) returns (acts: seq<Action>)
    ensures var w := Run(cfg, acts);
            && 6 in w.procs && w.procs[6] == Proc(4, [2], [3], At(DeleteStoreEntry), true) && w.worker == None
            && 4 in w.docs && 4 in w.offerings.table && w.offerings.table[4].status == O.PUBLISHING
  {
    var acts0 := EntryCreated(cfg);
    acts := acts0 + [Task(6, Refused, 0)];
    Then(cfg, acts0, Task(6, Refused, 0));
  }

  /** The deletion of its document is answered with an error status. */
  lemma DeleteRefused(cfg: Config) returns (acts: seq<Action>)
    requires cfg.compensationsFail
    ensures var w := Run(cfg, acts);
            && 6 in w.procs && w.procs[6] == Proc(4, [2], [3], Unlocking(0), true)
            && 4 in w.docs && 4 in w.offerings.table && w.offerings.table[4].status == O.PUBLISHING
  {
    var acts0 := ConfirmRefused(cfg);
    var a, b := Task(6, Refused, 0), Task(6, Delivered, 0);
    acts := (acts0 + [a]) + [b];
    Then(cfg, acts0, a);
    Then(cfg, acts0 + [a], b);
  }

  /** A refused deletion leaves a document behind: its saga has ended in failure and its offering is a DRAFT. */
  lemma LostDeleteLeavesDocument() returns (cfg: Config, acts: seq<Action>)
    ensures cfg == Config(ToRevert, true, false, false, false)
    ensures var w := Run(cfg, acts);
            && 6 in w.procs && w.procs[6].token == At(Failed) && w.procs[6].offering == 4
            && 4 in w.offerings.table && w.offerings.table[4].status == O.DRAFT && 4 in w.docs
  {
    cfg := Config(ToRevert, true, false, false, false);
    var acts0 := DeleteRefused(cfg);
    var a := Task(6, Delivered, 0);
    var acts1, acts2 := acts0 + [a], (acts0 + [a]) + [a];
    acts := acts2 + [a];
    Then(cfg, acts0, a);
    assert Run(cfg, acts1).procs[6].token == Unlocking(1);
    Then(cfg, acts1, a);
    assert Run(cfg, acts2).procs[6].token == At(RevertToDraft);
    Then(cfg, acts2, a);
  }

  // ---- a settled store with a hole --------------------------------------------------------------------

  /** Offering 4 alone is being published, by process 6, and the store has heard of nothing yet. */
  ghost predicate Alone(w: World, t: Token, locked: bool, s: O.Status, events: nat) {
    && w.procs == map[6 := Proc(4, [2], [3], t, locked)] && w.specs.table.Keys == {2} && w.docs == map[]
    && w.offerings.table.Keys == {4} && w.offerings.table[4].content == PLAN && w.offerings.table[4].status == s
    && |w.offerings.outbox| == events && forall k :: 0 <= k < |w.offerings.outbox| ==> w.offerings.outbox[k].id == 4
  }

  lemma AloneStarted(cfg: Config) returns (acts: seq<Action>)
    ensures var w := Run(cfg, acts);
            && Alone(w, At(LockPrices), false, O.PUBLISHING, 2) && w.read.offerings == 0 && w.worker == None
            && w.offerings.outbox[0].Created? && w.offerings.outbox[1].PublicationInitiated?
            && w.prices.table == map[3 := P.Priced(MONTHLY, false, None)]
  {
    var acts0 := AloneDrafted(cfg);
    acts := acts0 + [Publish(4, 6, true)];
    Then(cfg, acts0, Publish(4, 6, true));
  }

  lemma AloneDrafted(cfg: Config) returns (acts: seq<Action>)
    ensures var w, off := Run(cfg, acts), O.Offering(PLAN, O.DRAFT, None, None);
            && Stocked(w) && w.used == {1, 2, 3, 4} && w.offerings == O.Db(map[4 := off], [O.Created(4, off)])
  {
    var acts0 := CatalogueStocked(cfg);
    acts := acts0 + [CreateOffering(4, PLAN)];
    Then(cfg, acts0, CreateOffering(4, PLAN));
  }

  /** It locks its price. */
  lemma AloneLocks(cfg: Config) returns (acts: seq<Action>)
    ensures var w := Run(cfg, acts);
            && Alone(w, At(ValidateSpecs), true, O.PUBLISHING, 2) && w.read.offerings == 0
            && w.offerings.outbox[0].Created? && w.offerings.outbox[1].PublicationInitiated?
  {
    var acts0 := AloneStarted(cfg);
    var a := Task(6, Delivered, 0);
    acts := ((acts0 + [a]) + [a]) + [a];
    Then(cfg, acts0, a);
    Then(cfg, acts0 + [a], a);
    Then(cfg, (acts0 + [a]) + [a], a);
  }

  /** Its sync fails silently. */
  lemma AloneSynced(cfg: Config) returns (acts: seq<Action>)
    requires cfg.hollowSyncs
    ensures var w := Run(cfg, acts);
            && Alone(w, At(ConfirmPublication), true, O.PUBLISHING, 2) && w.read.offerings == 0
            && w.offerings.outbox[0].Created? && w.offerings.outbox[1].PublicationInitiated?
  {
    var acts0 := AloneLocks(cfg);
    var a, b := Task(6, Delivered, 0), Task(6, Hollow, 0);
    acts := (acts0 + [a]) + [b];
    Then(cfg, acts0, a);
    assert Run(cfg, acts0 + [a]).procs[6].token == At(CreateStoreEntry);
    Then(cfg, acts0 + [a], b);
  }

  /** It is confirmed. */
  lemma AloneConfirms(cfg: Config) returns (acts: seq<Action>)
    requires cfg.hollowSyncs
    ensures var w := Run(cfg, acts);
            && Alone(w, At(Succeeded), true, O.PUBLISHED, 3) && w.read.offerings == 0
            && w.offerings.outbox[0].Created? && w.offerings.outbox[1].PublicationInitiated?
               && w.offerings.outbox[2].Published?
  {
    var acts0 := AloneSynced(cfg);
    var a := Task(6, Delivered, 0);
    acts := acts0 + [a];
    Then(cfg, acts0, a);
  }

  /** One silent failure lets a saga succeed whose offering is in no index. */
  lemma SilentSyncPublishesNothing() returns (cfg: Config, acts: seq<Action>)
    ensures cfg == Config(ToRevert, false, false, false, true)
    ensures var w := Run(cfg, acts);
            && 6 in w.procs && w.procs[6].token == At(Succeeded) && w.procs[6].offering == 4
            && 4 in w.offerings.table && w.offerings.table[4].status == O.PUBLISHED && 4 !in w.docs
  {
    cfg := Config(ToRevert, false, false, false, true);
    acts := AloneConfirms(cfg);
  }

  /** Its OfferingPublished event then gets it stored. */
  lemma Heard(cfg: Config) returns (acts: seq<Action>)
    requires cfg.hollowSyncs
    ensures var w := Run(cfg, acts);
            && w.procs.Keys == {6} && w.procs[6].token == At(Succeeded)
            && w.offerings.table.Keys == {4} && w.offerings.table[4].status == O.PUBLISHED && 4 in w.docs
            && |w.offerings.outbox| == 3 && w.read.offerings == 3
  {
    var acts0 := AloneConfirms(cfg);
    var a := Deliver(St.KOffering, true);
    var acts1, acts2 := acts0 + [a], (acts0 + [a]) + [a];
    acts := acts2 + [a];
    Then(cfg, acts0, a);
    assert Run(cfg, acts1) == Run(cfg, acts0).(read := Run(cfg, acts1).read) && Run(cfg, acts1).read.offerings == 1;
    Then(cfg, acts1, a);
    assert Run(cfg, acts2) == Run(cfg, acts0).(read := Run(cfg, acts2).read) && Run(cfg, acts2).read.offerings == 2;
    Then(cfg, acts2, a);
  }

  /** And it is retired. */
  lemma HeardAndRetired(cfg: Config) returns (acts: seq<Action>)
    requires cfg.hollowSyncs
    ensures var w := Run(cfg, acts);
            && w.procs.Keys == {6} && w.procs[6].token == At(Succeeded)
            && w.offerings.table.Keys == {4} && w.offerings.table[4].status == O.RETIRED && 4 in w.docs
            && |w.offerings.outbox| == 4 && w.read.offerings == 3 && O.IsRetired(w.offerings.outbox[3], 4)
  {
    var acts0 := Heard(cfg);
    acts := acts0 + [RetireOffering(4, 0)];
    Then(cfg, acts0, RetireOffering(4, 0));
  }

  /** A retirement whose handler is stopped leaves the document of a RETIRED offering in a settled store. */
  lemma LostRetirementLeavesDocument() returns (cfg: Config, acts: seq<Action>)
    ensures cfg == Config(ToRevert, false, false, false, true)
    ensures var w := Run(cfg, acts);
            Visibility.Settled(w) && 4 in w.offerings.table && w.offerings.table[4].status == O.RETIRED && 4 in w.docs
  {
    cfg := Config(ToRevert, false, false, false, true);
    var acts0 := HeardAndRetired(cfg);
    acts := acts0 + [Deliver(St.KOffering, false)];
    Then(cfg, acts0, Deliver(St.KOffering, false));
  }

  /** Two silent failures leave a settled store without a PUBLISHED offering. */
  lemma TwoSilentFailuresHideOffering() returns (cfg: Config, acts: seq<Action>)
    ensures cfg == Config(ToRevert, false, false, false, true)
    ensures var w := Run(cfg, acts);
            && Visibility.Settled(w) && 4 in w.offerings.table && w.offerings.table[4].status == O.PUBLISHED
               && 4 !in w.docs
  {
    cfg := Config(ToRevert, false, false, false, true);
    var acts0 := AloneConfirms(cfg);
    var a := Deliver(St.KOffering, false);
    acts := ((acts0 + [a]) + [a]) + [a];
    Then(cfg, acts0, a);
    Then(cfg, acts0 + [a], a);
    Then(cfg, (acts0 + [a]) + [a], a);
    assert Run(cfg, acts).docs == map[];
  }
}

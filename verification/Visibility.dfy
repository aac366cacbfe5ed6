/** Which offerings have a document in the store. */
module Visibility {
  import opened Common
  import opened SagaGraph
  import opened WorldModel
  import O = Offerings
  import S = Specifications
  import St = Store
  import Agreement

  // ---- the offering service inside the world -----------------------------------------------------

  ghost predicate OfferingsSound(w: World) {
    O.Sound(w.offerings.table) && O.Announced(w.offerings) && w.read.offerings <= |w.offerings.outbox|
  }

  /** The offering part of the world moves by calls of its service only. */
  ghost predicate OfferingsServed(w: World, w': World) {
    || w'.offerings == w.offerings
    || (exists call :: w'.offerings == O.Serve(w.offerings, call).0)
  }

  lemma ServedKeepsSound(w: World, w': World)
    requires OfferingsSound(w) && OfferingsServed(w, w') && w'.read.offerings <= |w'.offerings.outbox|
    ensures OfferingsSound(w')
  {
    if w'.offerings != w.offerings {
      var call :| w'.offerings == O.Serve(w.offerings, call).0;
      O.ServeSteps(w.offerings, call);
      O.ServeAnnounces(w.offerings, call);
    }
  }

  lemma ServeExtendsOutbox(db: O.Db, call: O.Call)
    ensures db.outbox <= O.Serve(db, call).0.outbox
  {
  }

  /** A step of the saga touches the offerings by Confirm and Fail, and the reading position never. */
  lemma QueuedServes(cfg: Config, w: World, p: Id, n: Node, net: Net, now: int)
    requires p in w.procs
    ensures var w' := ExecQueued(cfg, w, p, n, net, now);
            && w'.read == w.read
            && (w'.offerings == w.offerings
                || (n == ConfirmPublication && w'.offerings == O.Serve(w.offerings,
                   O.Confirm(w.procs[p].offering, now)).0)
                || (n == RevertToDraft && w'.offerings == O.Serve(w.offerings, O.Fail(w.procs[p].offering)).0))
  {
  }

  lemma TaskServes(cfg: Config, w: World, p: Id, net: Net, now: int)
    requires p in w.procs
    ensures var w' := ExecTask(cfg, w, p, net, now); w'.read == w.read && OfferingsServed(w, w')
  {
    match w.procs[p].token
    case At(n) => QueuedServes(cfg, w, p, n, net, now);
    case _ =>
  }

  lemma PublishServes(w: World, o: Id, p: Id, started: bool)
    ensures var w' := ExecPublish(w, o, p, started); w'.read == w.read && OfferingsServed(w, w')
  {
  }

  lemma ExecKeepsOfferingsSound(cfg: Config, w: World, a: Action)
    requires OfferingsSound(w)
    ensures OfferingsSound(Exec(cfg, w, a))
    ensures w.offerings.outbox <= Exec(cfg, w, a).offerings.outbox
  {
    var w' := Exec(cfg, w, a);
    match a
    case Task(p, net, now) => if p in w.procs { TaskServes(cfg, w, p, net, now); ServedGrows(w, w'); }
    case Publish(o, p, started) => PublishServes(w, o, p, started); ServedGrows(w, w');
    case CreateOffering(o, input) => ServedGrows(w, w');
    case UpdateOffering(o, input) => ServedGrows(w, w');
    case DeleteOffering(o) => ServedGrows(w, w');
    case RetireOffering(o, now) => ServedGrows(w, w');
    case _ =>
  }

  lemma ServedGrows(w: World, w': World)
    requires OfferingsSound(w) && OfferingsServed(w, w') && w'.read == w.read
    ensures OfferingsSound(w') && w.offerings.outbox <= w'.offerings.outbox
  {
    if w'.offerings != w.offerings {
      var call :| w'.offerings == O.Serve(w.offerings, call).0;
      ServeExtendsOutbox(w.offerings, call);
    }
    ServedKeepsSound(w, w');
  }

  // ---- visibility ----------------------------------------------------------------------------------

  /** The saga ran Create Store Entry, or died in it, and has not completed Delete Store Entry. */
  predicate PastCreate(t: Token) {
    match t
    case At(n) => n == ConfirmPublication || n == DeleteStoreEntry
    case Incident(n) => n == CreateStoreEntry || n == ConfirmPublication || n == DeleteStoreEntry
    case _ => false
  }

  ghost predicate ShownBy(w: World, o: Id, p: Id) {
    p in w.procs && w.procs[p].offering == o && PastCreate(w.procs[p].token)
  }

  ghost predicate RetiredPending(w: World, o: Id) {
    exists k :: w.read.offerings <= k < |w.offerings.outbox| && O.IsRetired(w.offerings.outbox[k], o)
  }

  /** May offering o have a document? */
  ghost predicate MayBeStored(w: World, o: Id) {
    o in w.offerings.table &&
    match w.offerings.table[o].status
    case DRAFT => false
    case PUBLISHING => exists p :: ShownBy(w, o, p)
    case PUBLISHED => true
    case RETIRED => RetiredPending(w, o)
  }

  /** Every stored document may be there. */
  ghost predicate NothingExtra(w: World) {
    forall o :: o in w.docs ==> MayBeStored(w, o)
  }

  /** A published offering is stored, and so is one about to be confirmed. */
  ghost predicate NothingMissing(w: World) {
    && (forall o :: o in w.offerings.table && w.offerings.table[o].status == O.PUBLISHED ==> o in w.docs)
    && (forall p :: p in w.procs && w.procs[p].token == At(ConfirmPublication) ==> w.procs[p].offering in w.docs)
  }

  ghost predicate Inv(cfg: Config, w: World) {
    && Agreement.Inv(w) && OfferingsSound(w) && NothingExtra(w)
    && (!cfg.hollowSyncs ==> NothingMissing(w))
  }

  // ---- steps outside the saga -------------------------------------------------------------------------

  /** Retirements still to be handled stay so while the reading position stands still. */
  lemma PendingStays(w: World, w': World, o: Id)
    requires w'.read.offerings == w.read.offerings && w.offerings.outbox <= w'.offerings.outbox && RetiredPending(w, o)
    ensures RetiredPending(w', o)
  {
  }

  /** A step that leaves alone who is stored, the processes and every offering beyond DRAFT. */
  ghost predicate Calm(w: World, w': World) {
    && w'.docs.Keys == w.docs.Keys && w'.procs == w.procs
    && w'.read.offerings == w.read.offerings && w.offerings.outbox <= w'.offerings.outbox
    && (forall o :: o in w.offerings.table && w.offerings.table[o].status != O.DRAFT ==>
          o in w'.offerings.table && w'.offerings.table[o].status == w.offerings.table[o].status)
    && (forall o :: o in w'.offerings.table && w'.offerings.table[o].status == O.PUBLISHED ==>
          o in w.offerings.table && w.offerings.table[o].status == O.PUBLISHED)
  }

  lemma CalmKeepsStored(w: World, w': World)
    requires Calm(w, w')
    ensures NothingExtra(w) ==> NothingExtra(w')
    ensures NothingMissing(w) ==> NothingMissing(w')
  {
    if NothingExtra(w) {
      forall o | o in w'.docs ensures MayBeStored(w', o) {
        assert MayBeStored(w, o);
        match w.offerings.table[o].status
        case PUBLISHING => var p :| ShownBy(w, o, p); assert ShownBy(w', o, p);
        case RETIRED => PendingStays(w, w', o);
        case _ =>
      }
    }
  }

  lemma RetireKeepsStored(w: World, o: Id, now: int)
    ensures var w' := w.(offerings := O.Serve(w.offerings, O.Retire(o, now)).0);
            && (OfferingsSound(w) && NothingExtra(w) ==> NothingExtra(w'))
            && (NothingMissing(w) ==> NothingMissing(w'))
  {
    var w' := w.(offerings := O.Serve(w.offerings, O.Retire(o, now)).0);
    if w' != w && OfferingsSound(w) && NothingExtra(w) {
      assert w'.offerings.table == w.offerings.table[o := w'.offerings.table[o]];
      forall x | x in w'.docs ensures MayBeStored(w', x) {
        assert MayBeStored(w, x);
        if x == o {
          assert O.IsRetired(w'.offerings.outbox[|w.offerings.outbox|], o);
        } else {
          match w.offerings.table[x].status
          case PUBLISHING => var p :| ShownBy(w, x, p); assert ShownBy(w', x, p);
          case RETIRED => PendingStays(w, w', x);
          case _ =>
        }
      }
    }
  }

  lemma PublishKeepsStored(w: World, o: Id, p: Id, started: bool)
    requires w.procs.Keys <= w.used
    ensures var w' := ExecPublish(w, o, p, started);
            && (NothingExtra(w) ==> NothingExtra(w'))
            && (NothingMissing(w) ==> NothingMissing(w'))
  {
    var w' := ExecPublish(w, o, p, started);
    if w' != w {
      assert w.offerings.table[o].status == O.DRAFT;
      assert w'.offerings.table == w.offerings.table[o := w'.offerings.table[o]]
        && w'.offerings.table[o].status == O.PUBLISHING;
      if NothingExtra(w) {
        forall x | x in w'.docs ensures MayBeStored(w', x) {
          assert MayBeStored(w, x);
          match w.offerings.table[x].status
          case PUBLISHING => var q :| ShownBy(w, x, q); assert ShownBy(w', x, q);
          case RETIRED => PendingStays(w, w', x);
          case _ =>
        }
      }
    }
  }

  // ---- event handling ---------------------------------------------------------------------------------

  lemma DeliverOtherKeepsKeys(w: World, topic: St.Kind, reachable: bool)
    requires topic != St.KOffering
    ensures ExecDeliver(w, topic, reachable).docs.Keys == w.docs.Keys
  {
  }

  /** Handling one offering event: the next retirement of any other offering stays pending. */
  lemma PendingSurvivesDelivery(w: World, w': World, o: Id)
    requires w'.offerings == w.offerings && w'.read.offerings == w.read.offerings + 1 && RetiredPending(w, o)
    requires w.read.offerings < |w.offerings.outbox| && !O.IsRetired(w.offerings.outbox[w.read.offerings], o)
    ensures RetiredPending(w', o)
  {
  }

  lemma DeliverOfferingKeepsExtra(w: World, reachable: bool)
    requires OfferingsSound(w) && NothingExtra(w)
    requires w.read.offerings < |w.offerings.outbox| && w.offerings.outbox[w.read.offerings].Retired? ==>
               reachable || w.offerings.outbox[w.read.offerings].id !in w.docs
    ensures NothingExtra(ExecDeliver(w, St.KOffering, reachable))
  {
    var w' := ExecDeliver(w, St.KOffering, reachable);
    if w.read.offerings < |w.offerings.outbox| {
      var e := w.offerings.outbox[w.read.offerings];
      assert O.PublishedWell(w.offerings, w.read.offerings);
      forall o | o in w'.docs ensures MayBeStored(w', o) {
        if e.Published? && o == e.id {
          if w.offerings.table[o].status == O.RETIRED {
            var m :| w.read.offerings < m < |w.offerings.outbox| && O.IsRetired(w.offerings.outbox[m], o);
            assert O.IsRetired(w'.offerings.outbox[m], o);
          }
        } else {
          assert MayBeStored(w, o) && !O.IsRetired(e, o);
          match w.offerings.table[o].status
          case PUBLISHING => var p :| ShownBy(w, o, p); assert ShownBy(w', o, p);
          case RETIRED => PendingSurvivesDelivery(w, w', o);
          case _ =>
        }
      }
    }
  }

  /** The stored ids after one offering event. */
  lemma EventShape(w: World, reachable: bool)
    requires w.read.offerings < |w.offerings.outbox|
    ensures var w', e := ExecDeliver(w, St.KOffering, reachable), w.offerings.outbox[w.read.offerings];
            && w'.procs == w.procs && w'.offerings == w.offerings && w'.read.offerings == w.read.offerings + 1
            && w'.docs.Keys == if e.Published? && reachable && e.id in w.offerings.table then w.docs.Keys + {e.id}
                               else if e.Retired? && reachable then w.docs.Keys - {e.id} else w.docs.Keys
  {
  }

  lemma DeliverOfferingKeepsMissing(w: World, reachable: bool)
    requires OfferingsSound(w) && Agreement.Inv(w) && NothingMissing(w)
    ensures NothingMissing(ExecDeliver(w, St.KOffering, reachable))
  {
    var w' := ExecDeliver(w, St.KOffering, reachable);
    if w.read.offerings < |w.offerings.outbox| {
      var e := w.offerings.outbox[w.read.offerings];
      EventShape(w, reachable);
      assert O.RetiredWell(w.offerings, w.read.offerings);
      forall p | p in w'.procs && w'.procs[p].token == At(ConfirmPublication) ensures w'.procs[p].offering in w'.docs {
        assert Agreement.Agrees(w, p);
      }
    }
  }

  // ---- steps of the saga ---------------------------------------------------------------------------------

  /** What process p's step may change here: its own token, and the document and offering it is about. */
  ghost predicate OwnStep(w: World, w': World, p: Id) {
    && p in w.procs && w'.procs.Keys == w.procs.Keys && w'.procs[p].offering == w.procs[p].offering
    && (forall q :: q in w.procs && q != p ==> w'.procs[q] == w.procs[q])
    && w'.read == w.read && w.offerings.outbox <= w'.offerings.outbox
    && (forall o :: o != w.procs[p].offering ==>
          && (o in w'.docs <==> o in w.docs) && (o in w'.offerings.table <==> o in w.offerings.table)
          && (o in w.offerings.table ==> w'.offerings.table[o] == w.offerings.table[o]))
  }

  /** If p is attached nobody else can be showing its offering. */
  lemma OwnStepKeepsExtra(w: World, w': World, p: Id)
    requires Agreement.Inv(w) && NothingExtra(w) && OwnStep(w, w', p)
    requires w.procs[p].offering in w'.docs ==> MayBeStored(w', w.procs[p].offering)
    ensures NothingExtra(w')
  {
    forall o | o in w'.docs && o != w.procs[p].offering ensures MayBeStored(w', o) {
      assert MayBeStored(w, o);
      match w.offerings.table[o].status
      case PUBLISHING => var q :| ShownBy(w, o, q); assert ShownBy(w', o, q);
      case RETIRED => PendingStays(w, w', o);
      case _ =>
    }
  }

  /** While a process is attached and not itself showing its offering, there is no document. */
  lemma NotShownNotStored(w: World, p: Id)
    requires Agreement.Inv(w) && NothingExtra(w) && p in w.procs
    requires Agreement.IsLive(w.procs[p].token) && !PastCreate(w.procs[p].token)
    ensures w.procs[p].offering !in w.docs
  {
  }

  /** Every task step but the four one-call tasks around the store and the offering. */
  ghost predicate StoreFree(w: World, w': World, p: Id) {
    && OwnStep(w, w', p) && w'.docs == w.docs && w'.offerings == w.offerings
    && Agreement.IsLive(w.procs[p].token) && !PastCreate(w.procs[p].token)
       && w'.procs[p].token != At(ConfirmPublication)
  }

  lemma StoreFreeKeepsStored(w: World, w': World, p: Id)
    requires Agreement.Inv(w) && NothingExtra(w) && StoreFree(w, w', p)
    ensures NothingExtra(w') && (NothingMissing(w) ==> NothingMissing(w'))
  {
    NotShownNotStored(w, p);
    OwnStepKeepsExtra(w, w', p);
  }

  lemma LockingIsStoreFree(w: World, p: Id, i: nat, net: Net)
    requires p in w.procs && w.procs[p].token == Locking(i)
    ensures StoreFree(w, ExecLocking(w, p, i, net), p)
  {
  }

  lemma RollbackIsStoreFree(cfg: Config, w: World, p: Id, n: nat, j: nat, net: Net)
    requires p in w.procs && w.procs[p].token == RollingBack(n, j)
    ensures StoreFree(w, ExecRollback(cfg, w, p, n, j, net), p)
  {
  }

  lemma UnlockingIsStoreFree(w: World, p: Id, j: nat, net: Net)
    requires p in w.procs && w.procs[p].token == Unlocking(j)
    ensures StoreFree(w, ExecUnlocking(w, p, j, net), p)
  {
  }

  lemma HandlerIsStoreFree(cfg: Config, w: World, p: Id, net: Net, now: int)
    requires p in w.procs && InPricing(w.procs[p].token)
    ensures var w' := ExecTask(cfg, w, p, net, now); w' == w || StoreFree(w, w', p)
  {
    match w.procs[p].token
    case At(n) =>
    case Locking(i) => LockingIsStoreFree(w, p, i, net);
    case RollingBack(n, j) => RollbackIsStoreFree(cfg, w, p, n, j, net);
    case Unlocking(j) => UnlockingIsStoreFree(w, p, j, net);
  }

  /** The tasks of the pricing worker and their handlers. */
  predicate InPricing(t: Token) {
    t.Locking? || t.RollingBack? || t.Unlocking? || t == At(LockPrices) || t == At(UnlockPrices)
  }

  lemma ValidateIsStoreFree(cfg: Config, w: World, p: Id, net: Net, now: int)
    requires p in w.procs && w.procs[p].token == At(ValidateSpecs) && net != Hollow
    ensures StoreFree(w, ExecQueued(cfg, w, p, ValidateSpecs, net, now), p)
  {
    Agreement.SettleShape(cfg, w, w, p, ValidateSpecs, S.AllFound(w.specs.table, w.procs[p].specIds), net);
  }

  lemma ValidateKeepsStored(cfg: Config, w: World, p: Id, net: Net, now: int)
    requires Agreement.Inv(w) && NothingExtra(w) && p in w.procs && w.procs[p].token == At(ValidateSpecs)
             && net != Hollow
    ensures var w' := ExecQueued(cfg, w, p, ValidateSpecs, net, now);
            NothingExtra(w')
            && (NothingMissing(w) ==> NothingMissing(w'))
  {
    ValidateIsStoreFree(cfg, w, p, net, now);
    StoreFreeKeepsStored(w, ExecQueued(cfg, w, p, ValidateSpecs, net, now), p);
  }

  lemma CreateKeepsStored(cfg: Config, w: World, p: Id, net: Net, now: int)
    requires Agreement.Inv(w) && NothingExtra(w) && p in w.procs && w.procs[p].token == At(CreateStoreEntry)
    ensures var w' := ExecQueued(cfg, w, p, CreateStoreEntry, net, now);
            NothingExtra(w') && (NothingMissing(w) && net != Hollow ==> NothingMissing(w'))
  {
    var w', o := ExecQueued(cfg, w, p, CreateStoreEntry, net, now), w.procs[p].offering;
    assert Agreement.Agrees(w, p);
    var ran := w.(docs := St.SyncAll(w.docs, Sources(w), {o}, true));
    assert ran.docs.Keys == w.docs.Keys + {o};
    Agreement.SettleShape(cfg, w, ran, p, CreateStoreEntry, true, net);
    CreatedIsShown(w, w', p, net);
    if NothingMissing(w) && net != Hollow { CreatedIsNotMissing(w, w', p); }
  }

  lemma CreatedIsShown(w: World, w': World, p: Id, net: Net)
    requires Agreement.Inv(w) && NothingExtra(w) && p in w.procs && w.procs[p].token == At(CreateStoreEntry)
    requires p in w'.procs && w'.procs == w.procs[p := w.procs[p].(token := w'.procs[p].token)]
    requires w'.offerings == w.offerings && w'.read == w.read
    requires w'.docs.Keys == w.docs.Keys + if net.Ran() then {w.procs[p].offering} else {}
    requires net.Ran() ==> PastCreate(w'.procs[p].token)
    ensures NothingExtra(w')
  {
    var o := w.procs[p].offering;
    assert Agreement.Agrees(w, p);
    NotShownNotStored(w, p);
    if net.Ran() { assert ShownBy(w', o, p); }
    OwnStepKeepsExtra(w, w', p);
  }

  lemma CreatedIsNotMissing(w: World, w': World, p: Id)
    requires NothingMissing(w) && p in w.procs && p in w'.procs
    requires w'.procs == w.procs[p := w.procs[p].(token := w'.procs[p].token)] && w'.offerings == w.offerings
    requires w.docs.Keys <= w'.docs.Keys && (w'.procs[p].token == At(ConfirmPublication)
             ==> w.procs[p].offering in w'.docs)
    ensures NothingMissing(w')
  {
  }

  lemma ConfirmKeepsStored(cfg: Config, w: World, p: Id, net: Net, now: int)
    requires Agreement.Inv(w) && NothingExtra(w) && p in w.procs && w.procs[p].token == At(ConfirmPublication)
             && net != Hollow
    ensures var w' := ExecQueued(cfg, w, p, ConfirmPublication, net, now);
            NothingExtra(w')
            && (NothingMissing(w) ==> NothingMissing(w'))
  {
    var w', o := ExecQueued(cfg, w, p, ConfirmPublication, net, now), w.procs[p].offering;
    assert Agreement.Agrees(w, p);
    var (db, reply) := O.Serve(w.offerings, O.Confirm(o, now));
    assert reply == O.Ok && db.table == w.offerings.table[o := db.table[o]] && db.table[o].status == O.PUBLISHED;
    Agreement.SettleShape(cfg, w, w.(offerings := db), p, ConfirmPublication, true, net);
    if !net.Ran() { assert ShownBy(w', o, p); }
    OwnStepKeepsExtra(w, w', p);
  }

  lemma DeleteKeepsStored(cfg: Config, w: World, p: Id, net: Net, now: int)
    requires Agreement.Inv(w) && NothingExtra(w) && p in w.procs && w.procs[p].token == At(DeleteStoreEntry)
    requires net != Hollow && (net == Refused ==> w.procs[p].offering !in w.docs)
    ensures var w' := ExecQueued(cfg, w, p, DeleteStoreEntry, net, now);
            NothingExtra(w')
            && (NothingMissing(w) ==> NothingMissing(w'))
  {
    var w', o := ExecQueued(cfg, w, p, DeleteStoreEntry, net, now), w.procs[p].offering;
    assert Agreement.Agrees(w, p);
    Agreement.SettleShape(cfg, w, w.(docs := w.docs - {o}), p, DeleteStoreEntry, true, net);
    if !net.Ran() && net != Refused { assert ShownBy(w', o, p); }
    OwnStepKeepsExtra(w, w', p);
    forall q | q in w'.procs && w'.procs[q].token == At(ConfirmPublication) ensures w'.procs[q].offering != o {
      assert Agreement.Agrees(w, q);
    }
  }

  lemma RevertIsOwnStep(cfg: Config, w: World, p: Id, net: Net, now: int)
    requires Agreement.Inv(w) && p in w.procs && w.procs[p].token == At(RevertToDraft)
    ensures var w' := ExecQueued(cfg, w, p, RevertToDraft, net, now);
            OwnStep(w, w', p) && w'.docs == w.docs && w'.procs[p].token != At(ConfirmPublication)
  {
    assert Agreement.Agrees(w, p);
    var (db, reply) := O.Serve(w.offerings, O.Fail(w.procs[p].offering));
    assert reply == O.Ok && db.table == w.offerings.table[w.procs[p].offering := db.table[w.procs[p].offering]];
    Agreement.SettleShape(cfg, w, w.(offerings := db), p, RevertToDraft, true, net);
  }

  lemma RevertKeepsStored(cfg: Config, w: World, p: Id, net: Net, now: int)
    requires Agreement.Inv(w) && NothingExtra(w) && p in w.procs && w.procs[p].token == At(RevertToDraft)
    ensures var w' := ExecQueued(cfg, w, p, RevertToDraft, net, now);
            NothingExtra(w')
            && (NothingMissing(w) ==> NothingMissing(w'))
  {
    var w' := ExecQueued(cfg, w, p, RevertToDraft, net, now);
    RevertIsOwnStep(cfg, w, p, net, now);
    NotShownNotStored(w, p);
    OwnStepKeepsExtra(w, w', p);
  }

  /** A stored offering's deletion is lost: its Delete Store Entry call is answered with an error status, or the
      store's consumer is stopped in its retirement. */
  ghost predicate LosesDelete(cfg: Config, w: World, a: Action) {
    RefusesDelete(cfg, w, a) || LosesRetirement(cfg, w, a)
  }

  /** The error status is logged and the task reported as done. */
  ghost predicate RefusesDelete(cfg: Config, w: World, a: Action) {
    && a.Task? && a.proc in w.procs && w.procs[a.proc].token == At(DeleteStoreEntry)
    && Allowed(cfg, w.procs[a.proc], a.net) && a.net == Refused && w.procs[a.proc].offering in w.docs
  }

  /** The exception is logged, the message gone and the event not remembered. */
  ghost predicate LosesRetirement(cfg: Config, w: World, a: Action) {
    && a.Deliver? && a.topic == St.KOffering && !a.reachable && cfg.hollowSyncs
    && w.read.offerings < |w.offerings.outbox|
    && var e := w.offerings.outbox[w.read.offerings]; e.Retired? && e.id in w.docs
  }

  lemma LostRetirementShows(cfg: Config, w: World, a: Action)
    requires OfferingsSound(w) && LosesRetirement(cfg, w, a)
    ensures !NothingExtra(Exec(cfg, w, a))
  {
    var w', k := Exec(cfg, w, a), w.read.offerings;
    var o := w.offerings.outbox[k].id;
    assert O.RetiredWell(w.offerings, k);
    assert o in w'.docs && w'.offerings == w.offerings && w'.read.offerings == k + 1;
    assert !RetiredPending(w', o);
    assert !MayBeStored(w', o);
  }

  lemma RefusedDeleteShows(cfg: Config, w: World, a: Action)
    requires Agreement.Inv(w) && RefusesDelete(cfg, w, a)
    ensures !NothingExtra(Exec(cfg, w, a))
  {
    var p, w' := a.proc, Exec(cfg, w, a);
    var o := w.procs[p].offering;
    Agreement.SettleShape(cfg, w, w.(docs := w.docs - {o}), p, DeleteStoreEntry, true, Refused);
    assert w'.procs == w.procs[p := w.procs[p].(token := At(UnlockPrices))] && w'.docs == w.docs;
    assert Agreement.Agrees(w, p) && w'.offerings == w.offerings;
    assert forall q :: ShownBy(w', o, q) ==> Agreement.Attached(w.procs[q].token) && q != p;
    assert !MayBeStored(w', o);
  }

  lemma TaskKeepsStored(cfg: Config, w: World, p: Id, net: Net, now: int)
    requires Agreement.Inv(w) && NothingExtra(w) && p in w.procs && !LosesDelete(cfg, w, Task(p, net, now))
    ensures var w' := ExecTask(cfg, w, p, net, now);
            NothingExtra(w') && (NothingMissing(w) && !cfg.hollowSyncs ==> NothingMissing(w'))
  {
    var t := w.procs[p].token;
    if !Allowed(cfg, w.procs[p], net) {
    } else if InPricing(t) {
      HandlerIsStoreFree(cfg, w, p, net, now);
      if ExecTask(cfg, w, p, net, now) != w { StoreFreeKeepsStored(w, ExecTask(cfg, w, p, net, now), p); }
    } else if t.At? {
      match t.node
      case ValidateSpecs => ValidateKeepsStored(cfg, w, p, net, now);
      case CreateStoreEntry => CreateKeepsStored(cfg, w, p, net, now);
      case ConfirmPublication => ConfirmKeepsStored(cfg, w, p, net, now);
      case DeleteStoreEntry => DeleteKeepsStored(cfg, w, p, net, now);
      case RevertToDraft => RevertKeepsStored(cfg, w, p, net, now);
      case _ =>
    }
  }

  // ---- runs --------------------------------------------------------------------------------------------------

  lemma AdminIsCalm(cfg: Config, w: World, a: Action)
    requires !a.Publish? && !a.Task? && !a.Deliver? && !a.RetireOffering?
    ensures Calm(w, Exec(cfg, w, a))
  {
  }

  lemma ExecKeepsStored(cfg: Config, w: World, a: Action)
    requires Agreement.Inv(w) && OfferingsSound(w) && NothingExtra(w) && !LosesDelete(cfg, w, a)
    ensures var w' := Exec(cfg, w, a);
            NothingExtra(w') && (NothingMissing(w) && !cfg.hollowSyncs ==> NothingMissing(w'))
  {
    match a
    case Task(p, net, now) => if p in w.procs { TaskKeepsStored(cfg, w, p, net, now); }
    case Publish(o, p, started) => PublishKeepsStored(w, o, p, started);
    case RetireOffering(o, now) => RetireKeepsStored(w, o, now);
    case Deliver(topic, reachable) => DeliverKeepsStored(cfg, w, topic, reachable);
    case _ => AdminIsCalm(cfg, w, a); CalmKeepsStored(w, Exec(cfg, w, a));
  }

  /** Whatever the environment does, a step leaves every document in its place if and only if it does not
      lose the deletion of one. */
  lemma VisibleUnlessDeleteLost(cfg: Config, w: World, a: Action)
    requires Agreement.Inv(w) && OfferingsSound(w) && NothingExtra(w)
    ensures NothingExtra(Exec(cfg, w, a)) <==> !LosesDelete(cfg, w, a)
  {
    if RefusesDelete(cfg, w, a) {
      RefusedDeleteShows(cfg, w, a);
    } else if LosesRetirement(cfg, w, a) {
      LostRetirementShows(cfg, w, a);
    } else {
      ExecKeepsStored(cfg, w, a);
    }
  }

  lemma ExecKeepsInv(cfg: Config, w: World, a: Action)
    requires Inv(cfg, w) && !LosesDelete(cfg, w, a)
    ensures Inv(cfg, Exec(cfg, w, a))
  {
    Agreement.ExecKeepsInv(cfg, w, a);
    ExecKeepsOfferingsSound(cfg, w, a);
    ExecKeepsStored(cfg, w, a);
  }

  lemma DeliverOtherIsCalm(w: World, topic: St.Kind, reachable: bool)
    requires topic != St.KOffering
    ensures Calm(w, ExecDeliver(w, topic, reachable))
  {
    DeliverOtherKeepsKeys(w, topic, reachable);
    var w' := ExecDeliver(w, topic, reachable);
    assert w'.offerings == w.offerings && w'.procs == w.procs && w'.read.offerings == w.read.offerings;
  }

  lemma DeliverKeepsStored(cfg: Config, w: World, topic: St.Kind, reachable: bool)
    requires Agreement.Inv(w) && OfferingsSound(w) && NothingExtra(w)
    requires !LosesRetirement(cfg, w, Deliver(topic, reachable))
    ensures var w' := Exec(cfg, w, Deliver(topic, reachable));
            NothingExtra(w') && (NothingMissing(w) && !cfg.hollowSyncs ==> NothingMissing(w'))
  {
    if !reachable && !cfg.hollowSyncs {
    } else if topic == St.KOffering {
      DeliverOfferingKeepsExtra(w, reachable);
      if NothingMissing(w) && !cfg.hollowSyncs { DeliverOfferingKeepsMissing(w, reachable); }
    } else {
      var w' := ExecDeliver(w, topic, reachable);
      DeliverOtherIsCalm(w, topic, reachable);
      CalmKeepsStored(w, w');
    }
  }

  /** No step of the run loses a deletion. */
  ghost predicate NoLostDelete(cfg: Config, acts: seq<Action>) {
    acts == [] || (NoLostDelete(cfg, acts[..|acts| - 1])
      && !LosesDelete(cfg, Run(cfg, acts[..|acts| - 1]), acts[|acts| - 1]))
  }

  /** In every state of the run each document is one that may be there. */
  ghost predicate AlwaysVisible(cfg: Config, acts: seq<Action>) {
    NothingExtra(Run(cfg, acts)) && (acts == [] || AlwaysVisible(cfg, acts[..|acts| - 1]))
  }

  lemma {:induction false} RunKeepsOfferingsSound(cfg: Config, acts: seq<Action>)
    ensures OfferingsSound(Run(cfg, acts))
  {
    if acts != [] {
      RunKeepsOfferingsSound(cfg, acts[..|acts| - 1]);
      ExecKeepsOfferingsSound(cfg, Run(cfg, acts[..|acts| - 1]), acts[|acts| - 1]);
    }
  }

  lemma {:induction false} RunKeepsInv(cfg: Config, acts: seq<Action>)
    requires NoLostDelete(cfg, acts)
    ensures Inv(cfg, Run(cfg, acts))
  {
    if acts != [] {
      RunKeepsInv(cfg, acts[..|acts| - 1]);
      ExecKeepsInv(cfg, Run(cfg, acts[..|acts| - 1]), acts[|acts| - 1]);
    }
  }

  /** Documents are always where they may be, if and only if no deletion is ever lost. */
  lemma {:induction false} VisibilityIsNoLostDelete(cfg: Config, acts: seq<Action>)
    ensures AlwaysVisible(cfg, acts) <==> NoLostDelete(cfg, acts)
  {
    if acts != [] {
      var front := acts[..|acts| - 1];
      VisibilityIsNoLostDelete(cfg, front);
      if NoLostDelete(cfg, front) {
        RunKeepsInv(cfg, front);
        VisibleUnlessDeleteLost(cfg, Run(cfg, front), acts[|acts| - 1]);
      }
    }
  }

  /** No deletion is lost where compensating calls succeed and the store's consumer is never stopped. */
  lemma {:induction false} ReliableDeletes(cfg: Config, acts: seq<Action>)
    requires !cfg.compensationsFail && !cfg.hollowSyncs
    ensures NoLostDelete(cfg, acts)
  {
    if acts != [] { ReliableDeletes(cfg, acts[..|acts| - 1]); }
  }

  /** Where no deletion is lost, a document exists only for an offering that is PUBLISHED, or PUBLISHING with
      its saga past Create Store Entry, or RETIRED with its retirement unhandled. */
  lemma StoredOnlyIfVisible(cfg: Config, acts: seq<Action>, o: Id)
    requires NoLostDelete(cfg, acts) && o in Run(cfg, acts).docs
    ensures MayBeStored(Run(cfg, acts), o)
  {
    RunKeepsInv(cfg, acts);
  }

  /** Every offering event is handled and no process instance is between its start and an end event. */
  ghost predicate Settled(w: World) {
    && w.read.offerings == |w.offerings.outbox|
    && forall p :: p in w.procs ==> w.procs[p].token == At(Succeeded) || w.procs[p].token == At(Failed)
  }
}

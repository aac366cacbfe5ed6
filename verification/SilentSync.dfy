/** Syncs that fail silently: exactly which published offerings they leave without a document. */
module SilentSync {
  import opened Common
  import opened SagaGraph
  import opened WorldModel
  import O = Offerings
  import St = Store
  import Agreement
  import Ownership
  import Visibility
  import StoreAgrees

  /** What happened to the syncs of a run: the processes whose Create Store Entry sync worked or failed
      silently, and the offerings whose OfferingPublished event was handled with a sync that worked, or without
      effect. */
  datatype History = History(stored: set<Id>, silent: set<Id>, heard: set<Id>, missed: set<Id>)

  const NOTHING := History({}, {}, {}, {})

  ghost function Note(cfg: Config, w: World, h: History, a: Action): History {
    match a
    case Task(p, net, _) =>
      if p !in w.procs || w.procs[p].token != At(CreateStoreEntry) || !Allowed(cfg, w.procs[p], net) then h
      else if net.Ran() then h.(stored := h.stored + {p})
      else if net == Hollow then h.(silent := h.silent + {p})
      else h
    case Deliver(topic, reachable) =>
      if topic != St.KOffering || w.read.offerings >= |w.offerings.outbox| || (!reachable && !cfg.hollowSyncs) then h
      else
        var e := w.offerings.outbox[w.read.offerings];
        if !e.Published? then h
        else if reachable then h.(heard := h.heard + {e.id})
        else h.(missed := h.missed + {e.id})
    case _ => h
  }

  ghost function Record(cfg: Config, acts: seq<Action>): History {
    if acts == [] then NOTHING
    else
      var front := acts[..|acts| - 1];
      Note(cfg, Run(cfg, front), Record(cfg, front), acts[|acts| - 1])
  }

  // ---- what the history tells ------------------------------------------------------------------

  predicate BeforeCreate(t: Token) {
    t.Locking? || (t.At? && (t.node == LockPrices || t.node == ValidateSpecs || t.node == CreateStoreEntry))
  }

  predicate ReachedConfirm(t: Token) {
    t == At(ConfirmPublication) || t == At(Succeeded) || t == Incident(ConfirmPublication)
  }

  ghost predicate ProcFits(w: World, h: History, p: Id)
    requires p in w.procs
  {
    var t, o := w.procs[p].token, w.procs[p].offering;
    && (BeforeCreate(t) ==> p !in h.stored + h.silent)
    && (ReachedConfirm(t) ==> (p in h.stored <==> p !in h.silent))
    && (t == At(ConfirmPublication) ==> (o in w.docs <==> p in h.stored))
    && (Agreement.ConfirmedBy(w, o, p) && o in w.offerings.table && w.offerings.table[o].status == O.PUBLISHED ==>
          (o in w.docs <==> p in h.stored || o in h.heard))
  }

  ghost predicate ToldPublished(w: World, o: Id) {
    exists k :: 0 <= k < w.read.offerings && k < |w.offerings.outbox| && O.IsPublished(w.offerings.outbox[k], o)
  }

  /** An announced offering was heard of or missed, and no other one was. */
  ghost predicate EventFits(w: World, h: History, o: Id) {
    if ToldPublished(w, o) then o in h.heard <==> o !in h.missed else o !in h.heard && o !in h.missed
  }

  ghost predicate Inv(w: World, h: History) {
    && h.stored <= w.procs.Keys && h.silent <= w.procs.Keys
    && (forall p :: p in w.procs ==> ProcFits(w, h, p))
    && (forall o :: EventFits(w, h, o))
  }

  lemma AnnouncedIsLive(w: World, o: Id)
    requires Visibility.OfferingsSound(w) && ToldPublished(w, o)
    ensures o in w.offerings.table && O.Live(w.offerings.table[o])
  {
    var k :| 0 <= k < w.read.offerings && k < |w.offerings.outbox| && O.IsPublished(w.offerings.outbox[k], o);
    assert O.PublishedWell(w.offerings, k);
  }

  // ---- steps outside the saga -------------------------------------------------------------------

  lemma AnnouncedStays(w: World, w': World, o: Id)
    requires Visibility.OfferingsSound(w) && w.offerings.outbox <= w'.offerings.outbox
             && w'.read.offerings == w.read.offerings
    ensures ToldPublished(w', o) <==> ToldPublished(w, o)
  {
    assert forall k :: 0 <= k < |w.offerings.outbox| ==> w'.offerings.outbox[k] == w.offerings.outbox[k];
  }

  lemma EventStaysFit(w: World, w': World, h: History, h': History, o: Id)
    requires Visibility.OfferingsSound(w) && w.offerings.outbox <= w'.offerings.outbox
             && w'.read.offerings == w.read.offerings
    requires EventFits(w, h, o) && h'.heard == h.heard && h'.missed == h.missed
    ensures EventFits(w', h', o)
  {
    AnnouncedStays(w, w', o);
  }

  /** The stored ids and the processes stand still, and no offering becomes PUBLISHED. */
  ghost predicate Still(w: World, w': World) {
    && w'.docs.Keys == w.docs.Keys && (forall p :: p in w.procs ==> p in w'.procs && w'.procs[p] == w.procs[p])
    && (forall p :: p in w'.procs && p !in w.procs ==> w'.procs[p].token == At(LockPrices))
    && w'.read.offerings == w.read.offerings && w.offerings.outbox <= w'.offerings.outbox
    && (forall o :: o in w'.offerings.table && w'.offerings.table[o].status == O.PUBLISHED ==>
          o in w.offerings.table && w.offerings.table[o].status == O.PUBLISHED)
  }

  lemma StillKeepsInv(w: World, w': World, h: History)
    requires Visibility.OfferingsSound(w) && Inv(w, h) && Still(w, w')
    ensures Inv(w', h)
  {
    forall p | p in w'.procs ensures ProcFits(w', h, p) {
      if p in w.procs { assert ProcFits(w, h, p); }
    }
    forall o ensures EventFits(w', h, o) { EventStaysFit(w, w', h, h, o); }
  }

  lemma PublishIsStill(w: World, o: Id, p: Id, started: bool)
    requires w.procs.Keys <= w.used
    ensures Still(w, ExecPublish(w, o, p, started))
  {
    var w' := ExecPublish(w, o, p, started);
    Visibility.ServeExtendsOutbox(w.offerings, O.Initiate(o));
  }

  lemma RetireIsStill(w: World, o: Id, now: int)
    ensures Still(w, w.(offerings := O.Serve(w.offerings, O.Retire(o, now)).0))
  {
  }

  // ---- events -------------------------------------------------------------------------------------

  lemma DeliverKeepsInv(cfg: Config, w: World, h: History, reachable: bool)
    requires Visibility.OfferingsSound(w) && Agreement.Inv(w) && Inv(w, h) && w.read.offerings < |w.offerings.outbox|
    requires reachable || cfg.hollowSyncs
    ensures Inv(ExecDeliver(w, St.KOffering, reachable), Note(cfg, w, h, Deliver(St.KOffering, reachable)))
  {
    var w', h' := ExecDeliver(w, St.KOffering, reachable), Note(cfg, w, h, Deliver(St.KOffering, reachable));
    var e := w.offerings.outbox[w.read.offerings];
    Visibility.EventShape(w, reachable);
    forall o ensures EventFits(w', h', o) {
      assert EventFits(w, h, o);
      AnnouncedNext(w, w', o);
      if O.IsPublished(e, o) { FirstAnnouncement(w, o); }
    }
    forall p | p in w'.procs ensures ProcFits(w', h', p) { EventKeepsProc(cfg, w, h, reachable, p); }
  }

  lemma AnnouncedNext(w: World, w': World, o: Id)
    requires w'.offerings == w.offerings && w'.read.offerings == w.read.offerings + 1 <= |w.offerings.outbox|
    ensures ToldPublished(w', o) <==> ToldPublished(w, o) || O.IsPublished(w.offerings.outbox[w.read.offerings], o)
  {
    if ToldPublished(w', o) {
      var k :| 0 <= k < w'.read.offerings && O.IsPublished(w'.offerings.outbox[k], o);
    }
    if O.IsPublished(w.offerings.outbox[w.read.offerings], o) {
      assert O.IsPublished(w'.offerings.outbox[w.read.offerings], o);
    }
  }

  /** An offering is announced as published once. */
  lemma FirstAnnouncement(w: World, o: Id)
    requires Visibility.OfferingsSound(w) && w.read.offerings < |w.offerings.outbox|
    requires O.IsPublished(w.offerings.outbox[w.read.offerings], o)
    ensures !ToldPublished(w, o)
  {
    assert O.PublishedWell(w.offerings, w.read.offerings);
  }

  lemma EventKeepsConfirming(w: World, reachable: bool, p: Id)
    requires Visibility.OfferingsSound(w) && Agreement.Inv(w) && w.read.offerings < |w.offerings.outbox|
    requires p in w.procs && w.procs[p].token == At(ConfirmPublication)
    ensures var o := w.procs[p].offering; o in ExecDeliver(w, St.KOffering, reachable).docs <==> o in w.docs
  {
    Visibility.EventShape(w, reachable);
    assert O.PublishedWell(w.offerings, w.read.offerings) && O.RetiredWell(w.offerings, w.read.offerings);
    assert Agreement.Agrees(w, p);
  }

  lemma EventKeepsPublished(w: World, reachable: bool, o: Id)
    requires Visibility.OfferingsSound(w) && w.read.offerings < |w.offerings.outbox|
    requires o in w.offerings.table && w.offerings.table[o].status == O.PUBLISHED
    ensures o in ExecDeliver(w, St.KOffering, reachable).docs <==>
            o in w.docs || (reachable && O.IsPublished(w.offerings.outbox[w.read.offerings], o))
  {
    Visibility.EventShape(w, reachable);
    assert O.RetiredWell(w.offerings, w.read.offerings);
  }

  lemma EventKeepsProc(cfg: Config, w: World, h: History, reachable: bool, p: Id)
    requires Visibility.OfferingsSound(w) && Agreement.Inv(w) && Inv(w, h) && w.read.offerings < |w.offerings.outbox|
    requires reachable || cfg.hollowSyncs
    requires p in w.procs
    ensures var w', h' := ExecDeliver(w, St.KOffering, reachable), Note(cfg, w, h, Deliver(St.KOffering, reachable));
            p in w'.procs && ProcFits(w', h', p)
  {
    var o := w.procs[p].offering;
    assert ProcFits(w, h, p);
    EventLeavesRest(cfg, w, h, reachable, p);
    if w.procs[p].token == At(ConfirmPublication) { EventKeepsConfirming(w, reachable, p); }
    if o in w.offerings.table && w.offerings.table[o].status == O.PUBLISHED { EventKeepsPublished(w, reachable, o); }
  }

  lemma EventLeavesRest(cfg: Config, w: World, h: History, reachable: bool, p: Id)
    requires w.read.offerings < |w.offerings.outbox| && (reachable || cfg.hollowSyncs)
    ensures var w', h' := ExecDeliver(w, St.KOffering, reachable), Note(cfg, w, h, Deliver(St.KOffering, reachable));
            var e := w.offerings.outbox[w.read.offerings];
            && w'.procs == w.procs && w'.offerings == w.offerings && h'.stored == h.stored && h'.silent == h.silent
            && h'.heard == h.heard + if e.Published? && reachable then {e.id} else {}
  {
  }

  // ---- steps of the saga --------------------------------------------------------------------------

  lemma OneMoreAtMost(s: set<Id>, s': set<Id>, p: Id)
    requires s' - {p} == s - {p}
    ensures s' <= s + {p}
  {
    forall x | x in s' ensures x in s + {p} {
      assert x != p ==> x in s' - {p};
    }
  }

  lemma OtherStaysFit(w: World, w': World, h: History, h': History, p: Id, q: Id)
    requires Agreement.Inv(w) && q in w.procs && q != p && ProcFits(w, h, q)
    requires Visibility.OwnStep(w, w', p) && Agreement.Attached(w.procs[p].token)
    requires h'.heard == h.heard && h'.stored - {p} == h.stored - {p} && h'.silent - {p} == h.silent - {p}
    ensures q in w'.procs && ProcFits(w', h', q)
  {
    assert q in h'.stored - {p} <==> q in h.stored - {p};
    assert q in h'.silent - {p} <==> q in h.silent - {p};
    if Agreement.Attached(w.procs[q].token) {
      assert w.procs[q].offering != w.procs[p].offering;
    }
  }

  /** A step of process p touches its own offering and its own entry of the history. */
  lemma OwnStepKeepsInv(w: World, w': World, h: History, h': History, p: Id)
    requires Visibility.OfferingsSound(w) && Agreement.Inv(w) && Inv(w, h)
    requires Visibility.OwnStep(w, w', p) && Agreement.Attached(w.procs[p].token)
    requires h'.heard == h.heard && h'.missed == h.missed
    requires h'.stored - {p} == h.stored - {p} && h'.silent - {p} == h.silent - {p} && ProcFits(w', h', p)
    ensures Inv(w', h')
  {
    forall q | q in w'.procs ensures ProcFits(w', h', q) {
      if q != p { OtherStaysFit(w, w', h, h', p, q); }
    }
    OneMoreAtMost(h.stored, h'.stored, p);
    OneMoreAtMost(h.silent, h'.silent, p);
    forall o ensures EventFits(w', h', o) { EventStaysFit(w, w', h, h', o); }
  }

  lemma CreateKeepsInv(cfg: Config, w: World, h: History, p: Id, net: Net, now: int)
    requires Visibility.Inv(cfg, w) && Inv(w, h) && p in w.procs && w.procs[p].token == At(CreateStoreEntry)
    requires Allowed(cfg, w.procs[p], net)
    ensures Inv(ExecTask(cfg, w, p, net, now), Note(cfg, w, h, Task(p, net, now)))
  {
    var w', h', o := ExecTask(cfg, w, p, net, now), Note(cfg, w, h, Task(p, net, now)), w.procs[p].offering;
    assert Agreement.Agrees(w, p) && ProcFits(w, h, p);
    Visibility.NotShownNotStored(w, p);
    CreateShape(cfg, w, p, net, now);
    CreatedFits(w, w', h, h', p, net);
    OwnStepKeepsInv(w, w', h, h', p);
  }

  lemma CreatedFits(w: World, w': World, h: History, h': History, p: Id, net: Net)
    requires p in w.procs && p in w'.procs && ProcFits(w, h, p) && w.procs[p].token == At(CreateStoreEntry)
    requires w'.procs[p].offering == w.procs[p].offering && w.procs[p].offering !in w.docs
    requires w.procs[p].offering in w'.docs <==> net.Ran()
    requires h' == if net.Ran() then h.(stored := h.stored + {p})
             else if net == Hollow then h.(silent := h.silent + {p}) else h
    requires w'.procs[p].token == match Report(CreateStoreEntry, true, net)
                                  case Completed => At(ConfirmPublication)
                                  case BpmnError => At(UnlockPrices)
                                  case Raised => Incident(CreateStoreEntry)
    ensures ProcFits(w', h', p)
  {
  }

  lemma CreateShape(cfg: Config, w: World, p: Id, net: Net, now: int)
    requires p in w.procs && w.procs[p].token == At(CreateStoreEntry) && w.procs[p].offering in w.offerings.table
    requires Allowed(cfg, w.procs[p], net)
    ensures var w', o := ExecTask(cfg, w, p, net, now), w.procs[p].offering;
            && Visibility.OwnStep(w, w', p) && w'.offerings == w.offerings
            && (o in w'.docs <==> net.Ran() || o in w.docs)
            && w'.procs[p].token == (match Report(CreateStoreEntry, true, net)
                                     case Completed => At(ConfirmPublication)
                                     case BpmnError => At(UnlockPrices)
                                     case Raised => Incident(CreateStoreEntry))
  {
    var ran := w.(docs := St.SyncAll(w.docs, Sources(w), {w.procs[p].offering}, true));
    Agreement.SettleShape(cfg, w, ran, p, CreateStoreEntry, true, net);
  }

  lemma ConfirmKeepsInv(cfg: Config, w: World, h: History, p: Id, net: Net, now: int)
    requires Visibility.Inv(cfg, w) && Inv(w, h) && p in w.procs && w.procs[p].token == At(ConfirmPublication)
    requires Allowed(cfg, w.procs[p], net)
    ensures Inv(ExecTask(cfg, w, p, net, now), h)
  {
    var w', o := ExecTask(cfg, w, p, net, now), w.procs[p].offering;
    assert Agreement.Agrees(w, p) && ProcFits(w, h, p) && EventFits(w, h, o);
    if o in h.heard { AnnouncedIsLive(w, o); }
    ConfirmShape(cfg, w, p, net, now);
    ConfirmedFits(w, w', h, p);
    OwnStepKeepsInv(w, w', h, h, p);
  }

  lemma ConfirmedFits(w: World, w': World, h: History, p: Id)
    requires p in w.procs && p in w'.procs && ProcFits(w, h, p) && w.procs[p].token == At(ConfirmPublication)
    requires w'.procs[p].offering == w.procs[p].offering && w.procs[p].offering !in h.heard && w'.docs == w.docs
    requires var t := w'.procs[p].token;
             t == At(Succeeded) || t == At(DeleteStoreEntry)
             || t == Incident(ConfirmPublication)
    ensures ProcFits(w', h, p)
  {
  }

  lemma ConfirmShape(cfg: Config, w: World, p: Id, net: Net, now: int)
    requires Agreement.Inv(w) && p in w.procs && w.procs[p].token == At(ConfirmPublication)
             && Allowed(cfg, w.procs[p], net)
    ensures var w' := ExecTask(cfg, w, p, net, now);
            && Visibility.OwnStep(w, w', p) && w'.docs == w.docs
            && (w'.procs[p].token == At(Succeeded) || w'.procs[p].token == At(DeleteStoreEntry)
               || w'.procs[p].token == Incident(ConfirmPublication))
  {
    assert Agreement.Agrees(w, p);
    var (db, reply) := O.Serve(w.offerings, O.Confirm(w.procs[p].offering, now));
    Visibility.ServeExtendsOutbox(w.offerings, O.Confirm(w.procs[p].offering, now));
    assert reply == O.Ok && db.table == w.offerings.table[w.procs[p].offering := db.table[w.procs[p].offering]];
    Agreement.SettleShape(cfg, w, w.(offerings := db), p, ConfirmPublication, true, net);
  }

  /** Every other task leaves the process where its own store entry no longer matters, or as it was. */
  lemma RestKeepsInv(cfg: Config, w: World, h: History, p: Id, net: Net, now: int)
    requires Visibility.Inv(cfg, w) && Inv(w, h) && p in w.procs && Allowed(cfg, w.procs[p], net)
    requires w.procs[p].token != At(CreateStoreEntry) && w.procs[p].token != At(ConfirmPublication)
    requires Agreement.IsLive(w.procs[p].token)
    ensures Inv(ExecTask(cfg, w, p, net, now), h)
  {
    var w' := ExecTask(cfg, w, p, net, now);
    assert ProcFits(w, h, p);
    RestIsOwnStep(cfg, w, p, net, now);
    RestMoves(cfg, w, p, net, now);
    OwnStepKeepsInv(w, w', h, h, p);
  }

  /** The steps of the pricing handlers. */
  lemma HandlerMoves(cfg: Config, w: World, p: Id, net: Net, now: int)
    requires p in w.procs && Ownership.InHandler(w.procs[p].token)
    ensures var w' := ExecTask(cfg, w, p, net, now);
            p in w'.procs && !ReachedConfirm(w'.procs[p].token)
            && (BeforeCreate(w'.procs[p].token) ==> BeforeCreate(w.procs[p].token))
  {
    match w.procs[p].token
    case Locking(i) =>
    case RollingBack(n, j) => RollbackMoves(cfg, w, p, n, j, net);
    case Unlocking(j) =>
  }

  lemma RollbackMoves(cfg: Config, w: World, p: Id, n: nat, j: nat, net: Net)
    requires p in w.procs
    ensures var t := ExecRollback(cfg, w, p, n, j, net).procs[p].token; !ReachedConfirm(t) && !BeforeCreate(t)
  {
  }

  lemma RestMoves(cfg: Config, w: World, p: Id, net: Net, now: int)
    requires p in w.procs && w.procs[p].token != At(CreateStoreEntry) && w.procs[p].token != At(ConfirmPublication)
    requires Agreement.IsLive(w.procs[p].token)
    ensures var w' := ExecTask(cfg, w, p, net, now);
            p in w'.procs && !ReachedConfirm(w'.procs[p].token)
            && (BeforeCreate(w'.procs[p].token) ==> BeforeCreate(w.procs[p].token))
  {
    match w.procs[p].token
    case At(n) => Agreement.QueuedFollows(cfg, w, p, n, net, now);
    case _ => HandlerMoves(cfg, w, p, net, now);
  }

  lemma RestIsOwnStep(cfg: Config, w: World, p: Id, net: Net, now: int)
    requires Visibility.Inv(cfg, w) && p in w.procs && Allowed(cfg, w.procs[p], net)
    requires w.procs[p].token != At(CreateStoreEntry) && w.procs[p].token != At(ConfirmPublication)
    requires Agreement.IsLive(w.procs[p].token)
    ensures Visibility.OwnStep(w, ExecTask(cfg, w, p, net, now), p)
  {
    var t := w.procs[p].token;
    if Visibility.InPricing(t) {
      Visibility.HandlerIsStoreFree(cfg, w, p, net, now);
    } else if t == At(ValidateSpecs) {
      Visibility.ValidateIsStoreFree(cfg, w, p, net, now);
    } else if t == At(DeleteStoreEntry) {
      Agreement.SettleShape(cfg, w, w.(docs := w.docs - {w.procs[p].offering}), p, DeleteStoreEntry, true, net);
    } else {
      Visibility.RevertIsOwnStep(cfg, w, p, net, now);
    }
  }

  lemma TaskKeepsInv(cfg: Config, w: World, h: History, p: Id, net: Net, now: int)
    requires Visibility.Inv(cfg, w) && Inv(w, h) && p in w.procs
    ensures Inv(ExecTask(cfg, w, p, net, now), Note(cfg, w, h, Task(p, net, now)))
  {
    if Allowed(cfg, w.procs[p], net) {
      var t := w.procs[p].token;
      if t == At(CreateStoreEntry) { CreateKeepsInv(cfg, w, h, p, net, now); }
      else if t == At(ConfirmPublication) { ConfirmKeepsInv(cfg, w, h, p, net, now); }
      else if Agreement.IsLive(t) { RestKeepsInv(cfg, w, h, p, net, now); }
    }
  }

  // ---- runs -----------------------------------------------------------------------------------------

  lemma ExecKeepsInv(cfg: Config, w: World, h: History, a: Action)
    requires Visibility.Inv(cfg, w) && Inv(w, h)
    ensures Inv(Exec(cfg, w, a), Note(cfg, w, h, a))
  {
    match a
    case Task(p, net, now) => if p in w.procs { TaskKeepsInv(cfg, w, h, p, net, now); }
    case Publish(o, p, started) =>
      PublishIsStill(w, o, p, started);
      StillKeepsInv(w, Exec(cfg, w, a), h);
    case RetireOffering(o, now) =>
      RetireIsStill(w, o, now);
      StillKeepsInv(w, Exec(cfg, w, a), h);
    case Deliver(topic, reachable) => DeliverAnyKeepsInv(cfg, w, h, topic, reachable);
    case _ =>
      Visibility.AdminIsCalm(cfg, w, a);
      StillKeepsInv(w, Exec(cfg, w, a), h);
  }

  lemma DeliverAnyKeepsInv(cfg: Config, w: World, h: History, topic: St.Kind, reachable: bool)
    requires Visibility.Inv(cfg, w) && Inv(w, h)
    ensures Inv(Exec(cfg, w, Deliver(topic, reachable)), Note(cfg, w, h, Deliver(topic, reachable)))
  {
    if topic != St.KOffering {
      Visibility.DeliverOtherIsCalm(w, topic, reachable);
      StillKeepsInv(w, ExecDeliver(w, topic, reachable), h);
    } else if w.read.offerings < |w.offerings.outbox| && (reachable || cfg.hollowSyncs) {
      DeliverKeepsInv(cfg, w, h, reachable);
    }
  }

  lemma {:induction false} RunKeepsInv(cfg: Config, acts: seq<Action>)
    requires Visibility.NoLostDelete(cfg, acts)
    ensures Inv(Run(cfg, acts), Record(cfg, acts)) && Visibility.Inv(cfg, Run(cfg, acts))
  {
    Visibility.RunKeepsInv(cfg, acts);
    if acts != [] {
      RunKeepsInv(cfg, acts[..|acts| - 1]);
      ExecKeepsInv(cfg, Run(cfg, acts[..|acts| - 1]), Record(cfg, acts[..|acts| - 1]), acts[|acts| - 1]);
    }
  }

  /** The offering was confirmed by a process whose Create Store Entry sync failed silently, and its OfferingPublished
      event had no effect: its sync failed silently too, or the event was lost. */
  ghost predicate BothSilent(cfg: Config, acts: seq<Action>, o: Id) {
    && o in Record(cfg, acts).missed
    && exists p :: Agreement.ConfirmedBy(Run(cfg, acts), o, p) && p in Record(cfg, acts).silent
  }

  /** In every run that loses no deletion: a PUBLISHED offering whose OfferingPublished event has been handled
      is missing from the store if and only if its first sync failed silently and that event had no effect. */
  lemma MissingIfBothSilent(cfg: Config, acts: seq<Action>, o: Id)
    requires Visibility.NoLostDelete(cfg, acts)
    requires var w := Run(cfg, acts);
             o in w.offerings.table && w.offerings.table[o].status == O.PUBLISHED
               && w.read.offerings == |w.offerings.outbox|
    ensures o !in Run(cfg, acts).docs <==> BothSilent(cfg, acts, o)
  {
    var w, h := Run(cfg, acts), Record(cfg, acts);
    RunKeepsInv(cfg, acts);
    var p :| Agreement.ConfirmedBy(w, o, p);
    assert ProcFits(w, h, p);
    assert Agreement.Attached(w.procs[p].token);
    assert forall q :: Agreement.ConfirmedBy(w, o, q) ==> Agreement.Attached(w.procs[q].token) && q == p;
    var k :| 0 <= k < |w.offerings.outbox| && O.IsPublished(w.offerings.outbox[k], o);
    assert ToldPublished(w, o) && EventFits(w, h, o);
  }

  lemma StoredIsPublished(w: World, o: Id)
    requires Visibility.NothingExtra(w) && Visibility.Settled(w) && o in w.docs
    ensures o in w.offerings.table && w.offerings.table[o].status == O.PUBLISHED
  {
    assert Visibility.MayBeStored(w, o);
  }

  /** Once all offering events are handled and no saga is under way, the stored offerings are exactly the
      PUBLISHED ones but for those. */
  lemma SettledStoreIsPublished(cfg: Config, acts: seq<Action>, o: Id)
    requires Visibility.NoLostDelete(cfg, acts) && Visibility.Settled(Run(cfg, acts))
    ensures var w := Run(cfg, acts);
            o in w.docs <==>
              o in w.offerings.table && w.offerings.table[o].status == O.PUBLISHED && !BothSilent(cfg, acts, o)
  {
    var w := Run(cfg, acts);
    Visibility.RunKeepsInv(cfg, acts);
    if o in w.docs { StoredIsPublished(w, o); }
    if o in w.offerings.table && w.offerings.table[o].status == O.PUBLISHED { MissingIfBothSilent(cfg, acts, o); }
  }

  /** Where every handled event has its effect, none is missed. */
  lemma {:induction false} NoneMissed(cfg: Config, acts: seq<Action>)
    requires StoreAgrees.EventsReach(cfg, acts)
    ensures Record(cfg, acts).missed == {}
  {
    if acts != [] { NoneMissed(cfg, acts[..|acts| - 1]); }
  }

  lemma DrainedIsSame(cfg: Config, acts: seq<Action>, o: Id)
    requires Visibility.NoLostDelete(cfg, acts) && StoreAgrees.EventsReach(cfg, acts)
             && StoreAgrees.Drained(Run(cfg, acts)) && o in Run(cfg, acts).docs
    ensures var w := Run(cfg, acts);
            o in w.offerings.table && St.SameDoc(w.docs[o], St.Compose(Sources(w), o))
  {
    StoreAgrees.StoreIsCoherent(cfg, acts, o);
  }

  /** When every event is handled and no saga is under way, the store holds exactly the PUBLISHED offerings, and
      each document shows, field by field, the offering, specifications, characteristics and prices as they are
      now, price locks aside. */
  lemma DrainedStoreIsTheCatalog(cfg: Config, acts: seq<Action>, o: Id)
    requires Visibility.NoLostDelete(cfg, acts) && StoreAgrees.EventsReach(cfg, acts)
             && StoreAgrees.Drained(Run(cfg, acts))
    ensures var w := Run(cfg, acts);
            && (o in w.docs <==> o in w.offerings.table && w.offerings.table[o].status == O.PUBLISHED)
            && (o in w.docs ==> St.ShowsContent(Sources(w), o, w.docs[o]))
  {
    SettledStoreIsPublished(cfg, acts, o);
    NoneMissed(cfg, acts);
    if o in Run(cfg, acts).docs {
      DrainedIsSame(cfg, acts, o);
      St.SameDocShows(Sources(Run(cfg, acts)), o, Run(cfg, acts).docs[o]);
    }
  }

  /** On a drained store find_affected_offerings returns exactly the stored offerings whose current
      graph reaches the given readable entity. */
  lemma DrainedStoreFindsAllAffected(cfg: Config, acts: seq<Action>, kind: St.Kind, x: Id)
    requires Visibility.NoLostDelete(cfg, acts) && StoreAgrees.EventsReach(cfg, acts)
             && StoreAgrees.Drained(Run(cfg, acts))
    requires St.CanRead(Sources(Run(cfg, acts)), kind, x)
    ensures var w := Run(cfg, acts);
            forall o :: o in w.docs ==>
              && o in w.offerings.table
              && (St.Matches(w.docs[o], kind, x) <==> St.Reaches(Sources(w), o, kind, x))
  {
    var w := Run(cfg, acts);
    forall o | o in w.docs ensures o in w.offerings.table && St.SameDoc(w.docs[o], St.Compose(Sources(w), o)) {
      DrainedIsSame(cfg, acts, o);
    }
    St.AffectedIsReached(Sources(w), w.docs, kind, x);
  }
}

/** Every run keeps the store coherent: the invariant of Coherence, step by step. */
module StoreAgrees {
  import opened Common
  import opened SagaGraph
  import opened WorldModel
  import opened Coherence
  import P = Pricing
  import PW = PricingWorker
  import O = Offerings
  import St = Store
  import Agreement
  import Visibility

  ghost predicate ReadsFit(w: World) {
    && w.read.offerings <= |w.offerings.outbox| && w.read.specs <= |w.specs.outbox|
    && w.read.chars <= |w.chars.outbox| && w.read.prices <= |w.prices.outbox|
  }

  ghost predicate AllTracked(w: World) { forall o :: o in w.docs ==> Tracked(w, o) }

  ghost predicate Base(cfg: Config, w: World) {
    Visibility.Inv(cfg, w) && IdsUsed(w) && P.Sound(w.prices.table) && ReadsFit(w)
  }

  ghost predicate Inv(cfg: Config, w: World) { Base(cfg, w) && AllTracked(w) }

  // ---- documents that a step leaves alone ---------------------------------------------------------------

  lemma CarriesTracked(w: World, w': World, o: Id, e: Popped)
    requires o in w.docs && Tracked(w, o) && o in w'.docs && w'.docs[o] == w.docs[o]
    requires Moves(w, w', e) && OfferingMoves(w, w', o)
    requires e.Popped? ==> !St.Matches(w.docs[o], e.kind, e.id)
    ensures Tracked(w', o)
  {
    var src :| Tracks(src, w, o);
    TracksCarries(src, w, w', o, e);
    assert Tracks(src, w', o);
  }

  /** A step without event handling: every document in w' other than those composed anew is carried over. */
  lemma StepCarries(w: World, w': World, anew: set<Id>)
    requires AllTracked(w) && QueuesGrow(w, w') && Moves(w, w', Nothing)
    requires forall o :: o in w'.docs && o !in anew ==> o in w.docs && w'.docs[o] == w.docs[o] && RowMoves(w, w', o)
    ensures forall o :: o in w'.docs && o !in anew ==> Tracked(w', o)
  {
    forall o | o in w'.docs && o !in anew ensures Tracked(w', o) {
      QueuedStays(w, w', o);
      CarriesTracked(w, w', o, Nothing);
    }
  }

  /** Row o is as before, but for a change that its own event announces. */
  ghost predicate RowMoves(w: World, w': World, o: Id) {
    && o in w.offerings.table && o in w'.offerings.table
    && w'.offerings.table[o].content == w.offerings.table[o].content
    && (w'.offerings.table[o] == w.offerings.table[o] || OfferingQueued(w', o))
  }

  lemma StoredIsNoDraft(cfg: Config, w: World, o: Id)
    requires Visibility.Inv(cfg, w) && o in w.docs
    ensures o in w.offerings.table && w.offerings.table[o].status != O.DRAFT
  {
  }

  // ---- administration -----------------------------------------------------------------------------------

  lemma SourceAdminMoves(cfg: Config, w: World, a: Action)
    requires ReadsFit(w) && (a.PriceAdmin? || a.CharAdmin? || a.SpecAdmin? || a.SyncCache?)
    ensures var w' := Exec(cfg, w, a);
            QueuesGrow(w, w') && Moves(w, w', Nothing) && w'.docs == w.docs && w'.offerings == w.offerings
  {
    match a
    case PriceAdmin(_) => PriceAdminMoves(cfg, w, a);
    case CharAdmin(_) => CharAdminMoves(cfg, w, a);
    case SpecAdmin(_) => SpecAdminMoves(cfg, w, a);
    case SyncCache => SettledSourcesMove(w, Exec(cfg, w, a), Nothing);
  }

  lemma SourceAdminKeepsTracked(cfg: Config, w: World, a: Action)
    requires Inv(cfg, w) && (a.PriceAdmin? || a.CharAdmin? || a.SpecAdmin? || a.SyncCache?)
    ensures AllTracked(Exec(cfg, w, a))
  {
    SourceAdminMoves(cfg, w, a);
    RowsUntouched(cfg, w, Exec(cfg, w, a), {});
  }

  /** A step that does not write the offerings. */
  lemma RowsUntouched(cfg: Config, w: World, w': World, anew: set<Id>)
    requires Inv(cfg, w) && QueuesGrow(w, w') && Moves(w, w', Nothing) && w'.offerings == w.offerings
    requires forall o :: o in w'.docs && o !in anew ==> o in w.docs && w'.docs[o] == w.docs[o]
    ensures forall o :: o in w'.docs && o !in anew ==> Tracked(w', o)
  {
    forall o | o in w'.docs && o !in anew ensures RowMoves(w, w', o) { StoredIsNoDraft(cfg, w, o); }
    StepCarries(w, w', anew);
  }

  lemma DraftCallKeepsRows(db: O.Db, call: O.Call, o: Id)
    requires o in db.table && db.table[o].status != O.DRAFT
    requires call.Create? || call.Update? || call.Delete? || call.Initiate?
    ensures var db' := O.Serve(db, call).0; o in db'.table && db'.table[o] == db.table[o]
  {
  }

  lemma RetireQueues(w: World, w': World, id: Id, now: int, o: Id)
    requires ReadsFit(w) && o in w.offerings.table && w' == w.(offerings := O.Serve(w.offerings, O.Retire(id, now)).0)
    ensures RowMoves(w, w', o)
  {
    var n := |w.offerings.outbox|;
    if |w'.offerings.outbox| > n { assert IsOffering(w'.offerings.outbox[n], id); }
  }

  lemma OfferingAdminShape(cfg: Config, w: World, a: Action)
    requires a.CreateOffering? || a.UpdateOffering? || a.DeleteOffering? || a.RetireOffering? || a.Publish?
    ensures var w' := Exec(cfg, w, a);
            && w'.docs == w.docs && w'.read == w.read && w.used <= w'.used
            && w'.specs == w.specs && w'.chars == w.chars && w'.prices == w.prices
  {
  }

  lemma OfferingAdminRows(cfg: Config, w: World, a: Action, o: Id)
    requires ReadsFit(w) && o in w.offerings.table && w.offerings.table[o].status != O.DRAFT
    requires a.CreateOffering? || a.UpdateOffering? || a.DeleteOffering? || a.RetireOffering? || a.Publish?
    ensures RowMoves(w, Exec(cfg, w, a), o)
  {
    match a
    case CreateOffering(x, input) => DraftCallKeepsRows(w.offerings, O.Create(x, input, Readable(w)), o);
    case UpdateOffering(x, input) => DraftCallKeepsRows(w.offerings, O.Update(x, input, Readable(w)), o);
    case DeleteOffering(x) => DraftCallKeepsRows(w.offerings, O.Delete(x), o);
    case Publish(x, _, _) => DraftCallKeepsRows(w.offerings, O.Initiate(x), o);
    case RetireOffering(x, now) => RetireQueues(w, Exec(cfg, w, a), x, now, o);
  }

  lemma OfferingAdminKeepsTracked(cfg: Config, w: World, a: Action)
    requires Inv(cfg, w) && (a.CreateOffering? || a.UpdateOffering? || a.DeleteOffering? || a.RetireOffering?
             || a.Publish?)
    ensures AllTracked(Exec(cfg, w, a))
  {
    var w' := Exec(cfg, w, a);
    Visibility.ExecKeepsOfferingsSound(cfg, w, a);
    OfferingAdminShape(cfg, w, a);
    SettledSourcesMove(w, w', Nothing);
    forall o | o in w'.docs ensures RowMoves(w, w', o) {
      StoredIsNoDraft(cfg, w, o);
      OfferingAdminRows(cfg, w, a, o);
    }
    StepCarries(w, w', {});
  }

  // ---- the saga --------------------------------------------------------------------------------------------

  /** What process p's step does to the documents and rows of others, and to its own. */
  lemma TaskKeepsTracked(cfg: Config, w: World, p: Id, net: Net, now: int)
    requires Inv(cfg, w) && p in w.procs
    ensures AllTracked(ExecTask(cfg, w, p, net, now))
  {
    var w' := ExecTask(cfg, w, p, net, now);
    var t := w.procs[p].token;
    if !Allowed(cfg, w.procs[p], net) {
    } else if Visibility.InPricing(t) || t == At(ValidateSpecs) {
      PlainTaskKeepsTracked(cfg, w, p, net, now);
    } else if t.At? {
      match t.node
      case CreateStoreEntry => CreateKeepsTracked(cfg, w, p, net, now);
      case ConfirmPublication => ConfirmKeepsTracked(cfg, w, p, net, now);
      case DeleteStoreEntry => DeleteKeepsTracked(cfg, w, p, net, now);
      case RevertToDraft => RevertKeepsTracked(cfg, w, p, net, now);
      case _ =>
    }
  }

  lemma PlainTaskKeepsTracked(cfg: Config, w: World, p: Id, net: Net, now: int)
    requires Inv(cfg, w) && p in w.procs
    requires Visibility.InPricing(w.procs[p].token) || w.procs[p].token == At(ValidateSpecs)
    ensures AllTracked(ExecTask(cfg, w, p, net, now))
  {
    var w' := ExecTask(cfg, w, p, net, now);
    TaskMoves(cfg, w, p, net, now);
    PlainTaskLeavesStore(cfg, w, p, net, now);
    RowsUntouched(cfg, w, w', {});
  }

  lemma PlainTaskLeavesStore(cfg: Config, w: World, p: Id, net: Net, now: int)
    requires p in w.procs
    requires Visibility.InPricing(w.procs[p].token) || w.procs[p].token == At(ValidateSpecs)
    ensures var w' := ExecTask(cfg, w, p, net, now); w'.docs == w.docs && w'.offerings == w.offerings
  {
  }

  lemma CreateKeepsTracked(cfg: Config, w: World, p: Id, net: Net, now: int)
    requires Inv(cfg, w) && p in w.procs && w.procs[p].token == At(CreateStoreEntry) && Allowed(cfg, w.procs[p], net)
    ensures AllTracked(ExecTask(cfg, w, p, net, now))
  {
    var w', o := ExecTask(cfg, w, p, net, now), w.procs[p].offering;
    TaskMoves(cfg, w, p, net, now);
    assert Agreement.Agrees(w, p);
    var ran := w.(docs := St.SyncAll(w.docs, Sources(w), {o}, true));
    Agreement.SettleShape(cfg, w, ran, p, CreateStoreEntry, true, net);
    assert w'.offerings == w.offerings;
    RowsUntouched(cfg, w, w', if net.Ran() then {o} else {});
    if net.Ran() { FreshIsTracked(w, w', o); }
  }

  lemma ConfirmShape(cfg: Config, w: World, p: Id, net: Net, now: int)
    requires Agreement.Inv(w) && p in w.procs && w.procs[p].token == At(ConfirmPublication) && net != Hollow
    ensures var w', o := ExecQueued(cfg, w, p, ConfirmPublication, net, now), w.procs[p].offering;
            && w'.docs == w.docs && o in w.offerings.table
            && if net.Ran() then
                 && o in w'.offerings.table && w'.offerings.table == w.offerings.table[o := w'.offerings.table[o]]
                 && w'.offerings.table[o].content == w.offerings.table[o].content
                 && |w'.offerings.outbox| == |w.offerings.outbox| + 1
                    && IsOffering(w'.offerings.outbox[|w.offerings.outbox|], o)
               else w'.offerings == w.offerings
  {
  }

  /** Only row o is changed, and either a queued event tells or no document is there to mind. */
  lemma OneRowMoves(cfg: Config, w: World, w': World, o: Id)
    requires Inv(cfg, w) && w'.docs == w.docs && w'.read == w.read
    requires w'.offerings == w.offerings
             || (o in w.offerings.table && o in w'.offerings.table
                 && w'.offerings.table == w.offerings.table[o := w'.offerings.table[o]]
                 && w'.offerings.table[o].content == w.offerings.table[o].content
                 && (o !in w.docs || (|w'.offerings.outbox| == |w.offerings.outbox| + 1
                                      && IsOffering(w'.offerings.outbox[|w.offerings.outbox|], o))))
    ensures forall x :: x in w'.docs ==> RowMoves(w, w', x)
  {
  }

  lemma ConfirmKeepsTracked(cfg: Config, w: World, p: Id, net: Net, now: int)
    requires Inv(cfg, w) && p in w.procs && w.procs[p].token == At(ConfirmPublication) && Allowed(cfg, w.procs[p], net)
    ensures AllTracked(ExecTask(cfg, w, p, net, now))
  {
    var w' := ExecTask(cfg, w, p, net, now);
    TaskMoves(cfg, w, p, net, now);
    ConfirmShape(cfg, w, p, net, now);
    OneRowMoves(cfg, w, w', w.procs[p].offering);
    StepCarries(w, w', {});
  }

  lemma DeleteKeepsTracked(cfg: Config, w: World, p: Id, net: Net, now: int)
    requires Inv(cfg, w) && p in w.procs && w.procs[p].token == At(DeleteStoreEntry) && Allowed(cfg, w.procs[p], net)
    ensures AllTracked(ExecTask(cfg, w, p, net, now))
  {
    var w', o := ExecTask(cfg, w, p, net, now), w.procs[p].offering;
    TaskMoves(cfg, w, p, net, now);
    Agreement.SettleShape(cfg, w, w.(docs := w.docs - {o}), p, DeleteStoreEntry, true, net);
    RowsUntouched(cfg, w, w', {});
  }

  lemma RevertShape(cfg: Config, w: World, p: Id, net: Net, now: int)
    requires Agreement.Inv(w) && p in w.procs && w.procs[p].token == At(RevertToDraft)
    ensures var w', o := ExecQueued(cfg, w, p, RevertToDraft, net, now), w.procs[p].offering;
            && w'.docs == w.docs && w'.read == w.read && o in w.offerings.table && o in w'.offerings.table
            && w'.offerings.table == w.offerings.table[o := w'.offerings.table[o]]
            && w'.offerings.table[o].content == w.offerings.table[o].content
  {
  }

  lemma RevertKeepsTracked(cfg: Config, w: World, p: Id, net: Net, now: int)
    requires Inv(cfg, w) && p in w.procs && w.procs[p].token == At(RevertToDraft) && Allowed(cfg, w.procs[p], net)
    ensures AllTracked(ExecTask(cfg, w, p, net, now))
  {
    var w', o := ExecTask(cfg, w, p, net, now), w.procs[p].offering;
    TaskMoves(cfg, w, p, net, now);
    assert Agreement.Agrees(w, p);
    Visibility.NotShownNotStored(w, p);
    RevertShape(cfg, w, p, net, now);
    OneRowMoves(cfg, w, w', o);
    StepCarries(w, w', {});
  }

  // ---- event handling -----------------------------------------------------------------------------------------

  /** After an event about x of a refreshing kind: matching documents are fresh, others untouched. */
  lemma RefreshKeepsTracked(cfg: Config, w: World, w': World, kind: St.Kind, x: Id)
    requires Inv(cfg, w) && kind != St.KOffering
    requires w'.docs == St.SyncAll(w.docs, Sources(w), St.Affected(w.docs, kind, x), true)
    requires Sources(w') == Sources(w) && w'.used == w.used && w'.offerings == w.offerings
    requires Moves(w, w', Popped(kind, x)) && forall o :: OfferingQueued(w, o) ==> OfferingQueued(w', o)
    ensures AllTracked(w')
  {
    forall o | o in w'.docs ensures Tracked(w', o) {
      StoredIsNoDraft(cfg, w, o);
      if St.Matches(w.docs[o], kind, x) {
        FreshIsTracked(w, w', o);
      } else {
        CarriesTracked(w, w', o, Popped(kind, x));
      }
    }
  }

  lemma IdleEventKeepsTracked(cfg: Config, w: World, w': World)
    requires Inv(cfg, w) && w'.docs == w.docs && w'.offerings == w.offerings
    requires Moves(w, w', Nothing) && forall o :: OfferingQueued(w, o) ==> OfferingQueued(w', o)
    ensures AllTracked(w')
  {
    forall o | o in w'.docs ensures Tracked(w', o) {
      StoredIsNoDraft(cfg, w, o);
      CarriesTracked(w, w', o, Nothing);
    }
  }

  lemma DeliverSpecKeepsTracked(cfg: Config, w: World)
    requires Inv(cfg, w)
    ensures AllTracked(ExecDeliver(w, St.KSpecification, true))
  {
    var w' := ExecDeliver(w, St.KSpecification, true);
    if w.read.specs < |w.specs.outbox| {
      var e := w.specs.outbox[w.read.specs];
      DeliverSpecShape(w);
      SpecPopMoves(w, w');
      if e.Created? {
        IdleEventKeepsTracked(cfg, w, w');
      } else {
        RefreshKeepsTracked(cfg, w, w', St.KSpecification, e.id);
      }
    }
  }

  lemma DeliverCharKeepsTracked(cfg: Config, w: World)
    requires Inv(cfg, w)
    ensures AllTracked(ExecDeliver(w, St.KCharacteristic, true))
  {
    var w' := ExecDeliver(w, St.KCharacteristic, true);
    if w.read.chars < |w.chars.outbox| {
      DeliverCharShape(w);
      CharPopMoves(w, w');
      var e := w.chars.outbox[w.read.chars];
      if e.Created? {
        IdleEventKeepsTracked(cfg, w, w');
      } else {
        RefreshKeepsTracked(cfg, w, w', St.KCharacteristic, e.id);
      }
    }
  }

  lemma DeliverCharShape(w: World)
    requires w.read.chars < |w.chars.outbox|
    ensures var w', e := ExecDeliver(w, St.KCharacteristic, true), w.chars.outbox[w.read.chars];
            && w' == w.(docs := w'.docs, read := w.read.(chars := w.read.chars + 1))
            && w'.docs == if e.Created? then w.docs
               else St.SyncAll(w.docs, Sources(w), St.Affected(w.docs, St.KCharacteristic, e.id), true)
  {
    var e := w.chars.outbox[w.read.chars];
    var t := CharType(e);
    assert ExecDeliver(w, St.KCharacteristic, true).docs == Handled(w, t, e.id, true);
    if e.Created? { HandleIsIdle(w.docs, Sources(w), t, e.id); } else { HandleRefreshes(w.docs, Sources(w), t, e.id); }
  }

  lemma DeliverSpecShape(w: World)
    requires w.read.specs < |w.specs.outbox|
    ensures var w', e := ExecDeliver(w, St.KSpecification, true), w.specs.outbox[w.read.specs];
            && w' == w.(docs := w'.docs, read := w.read.(specs := w.read.specs + 1))
            && w'.docs == if e.Created? then w.docs
               else St.SyncAll(w.docs, Sources(w), St.Affected(w.docs, St.KSpecification, e.id), true)
  {
  }

  lemma DeliverPriceKeepsTracked(cfg: Config, w: World)
    requires Inv(cfg, w)
    ensures AllTracked(ExecDeliver(w, St.KPrice, true))
  {
    var w' := ExecDeliver(w, St.KPrice, true);
    if w.read.prices < |w.prices.outbox| {
      DeliverPriceShape(w);
      PricePopMoves(w, w');
      var e := w.prices.outbox[w.read.prices];
      if e.Updated? || e.Deleted? {
        RefreshKeepsTracked(cfg, w, w', St.KPrice, e.id);
      } else {
        IdleEventKeepsTracked(cfg, w, w');
      }
    }
  }

  lemma DeliverPriceShape(w: World)
    requires w.read.prices < |w.prices.outbox|
    ensures var w', e := ExecDeliver(w, St.KPrice, true), w.prices.outbox[w.read.prices];
            && w' == w.(docs := w'.docs, read := w.read.(prices := w.read.prices + 1))
            && w'.docs == if e.Updated? || e.Deleted? then St.SyncAll(w.docs, Sources(w),
               St.Affected(w.docs, St.KPrice, e.id), true)
                          else w.docs
  {
    var e := w.prices.outbox[w.read.prices];
    var t := PriceType(e);
    assert ExecDeliver(w, St.KPrice, true).docs == Handled(w, t, e.id, true);
    if e.Updated? || e.Deleted? {
      HandleRefreshes(w.docs, Sources(w), t, e.id);
      assert St.Refreshes(t).value == St.KPrice;
    } else {
      HandleIsIdle(w.docs, Sources(w), t, e.id);
    }
  }

  lemma HandleRefreshes(docs: St.Index, src: St.Sources, t: St.EventType, x: Id)
    requires St.Refreshes(t).Some?
    ensures St.Handle(docs, src, t, x, true) == St.SyncAll(docs, src, St.Affected(docs, St.Refreshes(t).value, x), true)
  {
  }

  lemma HandleIsIdle(docs: St.Index, src: St.Sources, t: St.EventType, x: Id)
    requires St.Refreshes(t) == None && t != St.OfferingPublished && t != St.OfferingRetired
    ensures St.Handle(docs, src, t, x, true) == docs
  {
  }

  lemma DeliverOfferingShape(w: World)
    requires w.read.offerings < |w.offerings.outbox|
    ensures var w', e := ExecDeliver(w, St.KOffering, true), w.offerings.outbox[w.read.offerings];
            && w' == w.(docs := w'.docs, read := w.read.(offerings := w.read.offerings + 1))
            && w'.docs == if e.Published? then St.SyncAll(w.docs, Sources(w), {e.id}, true)
                          else if e.Retired? then w.docs - {e.id} else w.docs
  {
  }

  lemma DeliverOfferingKeepsTracked(cfg: Config, w: World)
    requires Inv(cfg, w)
    ensures AllTracked(ExecDeliver(w, St.KOffering, true))
  {
    if w.read.offerings < |w.offerings.outbox| {
      DeliverOfferingShape(w);
      OfferingEventKeepsTracked(cfg, w, ExecDeliver(w, St.KOffering, true), w.offerings.outbox[w.read.offerings]);
    }
  }

  lemma OfferingEventKeepsTracked(cfg: Config, w: World, w': World, e: O.Event)
    requires Inv(cfg, w) && w.read.offerings < |w.offerings.outbox| && e == w.offerings.outbox[w.read.offerings]
    requires w' == w.(docs := w'.docs, read := w.read.(offerings := w.read.offerings + 1))
    requires w'.docs == if e.Published? then St.SyncAll(w.docs, Sources(w), {e.id}, true)
                        else if e.Retired? then w.docs - {e.id} else w.docs
    ensures AllTracked(w')
  {
    OfferingPopMoves(w, w');
    if e.Published? { PublishedIsFresh(w, w'); }
    forall o | o in w'.docs && !IsOffering(e, o) ensures Tracked(w', o) { OtherStaysTracked(cfg, w, w', o); }
  }

  lemma PublishedIsFresh(w: World, w': World)
    requires Visibility.OfferingsSound(w) && w.read.offerings < |w.offerings.outbox|
             && w.offerings.outbox[w.read.offerings].Published?
    requires Sources(w') == Sources(w) && w'.used == w.used && IdsUsed(w)
    requires w'.docs == St.SyncAll(w.docs, Sources(w), {w.offerings.outbox[w.read.offerings].id}, true)
    ensures Tracked(w', w.offerings.outbox[w.read.offerings].id)
  {
    assert O.PublishedWell(w.offerings, w.read.offerings);
    FreshIsTracked(w, w', w.offerings.outbox[w.read.offerings].id);
  }

  lemma OtherStaysTracked(cfg: Config, w: World, w': World, o: Id)
    requires Inv(cfg, w) && o in w.docs && o in w'.docs && w'.docs[o] == w.docs[o] && w'.offerings == w.offerings
    requires Moves(w, w', Nothing) && (OfferingQueued(w, o) ==> OfferingQueued(w', o))
    ensures Tracked(w', o)
  {
    StoredIsNoDraft(cfg, w, o);
    CarriesTracked(w, w', o, Nothing);
  }

  // ---- runs --------------------------------------------------------------------------------------------------------

  lemma ExecKeepsTracked(cfg: Config, w: World, a: Action)
    requires Inv(cfg, w) && (a.Deliver? && cfg.hollowSyncs ==> a.reachable)
    ensures AllTracked(Exec(cfg, w, a))
  {
    match a
    case Task(p, net, now) => if p in w.procs { TaskKeepsTracked(cfg, w, p, net, now); }
    case Deliver(topic, reachable) =>
      if reachable {
        match topic
        case KOffering => DeliverOfferingKeepsTracked(cfg, w);
        case KSpecification => DeliverSpecKeepsTracked(cfg, w);
        case KCharacteristic => DeliverCharKeepsTracked(cfg, w);
        case KPrice => DeliverPriceKeepsTracked(cfg, w);
      }
    case PriceAdmin(_) => SourceAdminKeepsTracked(cfg, w, a);
    case CharAdmin(_) => SourceAdminKeepsTracked(cfg, w, a);
    case SpecAdmin(_) => SourceAdminKeepsTracked(cfg, w, a);
    case SyncCache => SourceAdminKeepsTracked(cfg, w, a);
    case _ => OfferingAdminKeepsTracked(cfg, w, a);
  }

  lemma ExecKeepsPricesSound(cfg: Config, w: World, a: Action)
    requires P.Sound(w.prices.table)
    ensures P.Sound(Exec(cfg, w, a).prices.table)
  {
    match a
    case PriceAdmin(call) => P.ServeKeepsSound(w.prices, call);
    case Task(p, net, now) => if p in w.procs { TaskKeepsPricesSound(cfg, w, p, net, now); }
    case _ =>
  }

  lemma TaskKeepsPricesSound(cfg: Config, w: World, p: Id, net: Net, now: int)
    requires P.Sound(w.prices.table) && p in w.procs
    ensures P.Sound(ExecTask(cfg, w, p, net, now).prices.table)
  {
    var ids := w.procs[p].priceIds;
    match w.procs[p].token
    case At(n) => QueuedKeepsSources(cfg, w, p, n, net, now);
    case Locking(i) => if i < |ids| { PW.LockCallEffect(w.prices, ids[i], p, net); }
    case RollingBack(_, j) => if j < |ids| { PW.UnlockCallEffect(w.prices, ids[j], net); }
    case Unlocking(j) => if j < |ids| { PW.UnlockCallEffect(w.prices, ids[j], net); }
    case Incident(_) =>
  }

  lemma ExecKeepsReadsFit(cfg: Config, w: World, a: Action)
    requires ReadsFit(w) && Visibility.OfferingsSound(w) && P.Sound(w.prices.table)
    ensures ReadsFit(Exec(cfg, w, a))
  {
    match a
    case Task(p, net, now) => if p in w.procs { PriceKeysStay(cfg, w, p, net, now); TaskMoves(cfg, w, p, net, now); }
    case Publish(o, p, started) => Visibility.ExecKeepsOfferingsSound(cfg, w, a);
    case CreateOffering(_, _) => Visibility.ExecKeepsOfferingsSound(cfg, w, a);
    case UpdateOffering(_, _) => Visibility.ExecKeepsOfferingsSound(cfg, w, a);
    case DeleteOffering(_) => Visibility.ExecKeepsOfferingsSound(cfg, w, a);
    case RetireOffering(_, _) => Visibility.ExecKeepsOfferingsSound(cfg, w, a);
    case Deliver(topic, reachable) => DeliverReadsFit(w, topic, reachable);
    case _ =>
  }

  lemma DeliverReadsFit(w: World, topic: St.Kind, reachable: bool)
    requires ReadsFit(w)
    ensures ReadsFit(ExecDeliver(w, topic, reachable))
  {
  }

  /** Every event that is handled has its effect. */
  ghost predicate EventsReach(cfg: Config, acts: seq<Action>) {
    cfg.hollowSyncs ==> forall i :: 0 <= i < |acts| && acts[i].Deliver? ==> acts[i].reachable
  }

  lemma {:induction false} RunKeepsInv(cfg: Config, acts: seq<Action>)
    requires Visibility.NoLostDelete(cfg, acts) && EventsReach(cfg, acts)
    ensures Inv(cfg, Run(cfg, acts))
  {
    if acts != [] {
      var w, a := Run(cfg, acts[..|acts| - 1]), acts[|acts| - 1];
      RunKeepsInv(cfg, acts[..|acts| - 1]);
      Visibility.ExecKeepsInv(cfg, w, a);
      ExecKeepsIdsUsed(cfg, w, a);
      ExecKeepsPricesSound(cfg, w, a);
      ExecKeepsReadsFit(cfg, w, a);
      ExecKeepsTracked(cfg, w, a);
    }
  }

  /** In every reachable state each stored document equals, price locks aside, the composition of the
      current offering, specifications, characteristics and prices, or an event is still queued whose
      handling will compose that document afresh or remove it. */
  lemma StoreIsCoherent(cfg: Config, acts: seq<Action>, o: Id)
    requires Visibility.NoLostDelete(cfg, acts) && EventsReach(cfg, acts) && o in Run(cfg, acts).docs
    ensures var w := Run(cfg, acts);
            o in w.offerings.table && (St.SameDoc(w.docs[o], St.Compose(Sources(w), o)) || RefreshQueued(w, o))
  {
    RunKeepsInv(cfg, acts);
    StoredIsNoDraft(cfg, Run(cfg, acts), o);
    TrackedIsCoherent(Run(cfg, acts), o);
  }

  /** Every event of every service is handled, and no saga is under way. */
  ghost predicate Drained(w: World) {
    && w.read == Progress(|w.offerings.outbox|, |w.specs.outbox|, |w.chars.outbox|, |w.prices.outbox|)
    && forall p :: p in w.procs ==> w.procs[p].token == At(Succeeded) || w.procs[p].token == At(Failed)
  }
}

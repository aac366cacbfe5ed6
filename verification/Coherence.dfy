/** The store's documents agree with the four services, up to events still queued. */
module Coherence {
  import opened Common
  import opened SagaGraph
  import opened WorldModel
  import P = Pricing
  import O = Offerings
  import S = Specifications
  import C = Characteristics
  import CharCache
  import Freeze
  import PW = PricingWorker
  import St = Store
  import Agreement
  import Visibility

  // ---- composition depends only on what it reaches ---------------------------------------------------

  ghost predicate SameAt<V>(t: map<Id, V>, t': map<Id, V>, x: Id) {
    (x in t <==> x in t') && (x in t ==> t[x] == t'[x])
  }

  lemma {:induction false} SameReads<V>(ids: seq<Id>, t: map<Id, V>, t': map<Id, V>)
    requires forall x :: x in ids ==> SameAt(t, t', x)
    ensures St.ReadAll(ids, t) == St.ReadAll(ids, t')
  {
    if ids != [] {
      SameReads(ids[..|ids| - 1], t, t');
      assert SameAt(t, t', ids[|ids| - 1]);
    }
  }

  lemma {:induction false} SameSpecDocs(ids: seq<Id>, src: St.Sources, src': St.Sources)
    requires forall s :: s in ids ==> SameAt(src.specs, src'.specs, s)
    requires forall s, c :: s in ids && s in src.specs && c in src.specs[s].charIds ==> SameAt(src.chars, src'.chars, c)
    ensures St.SpecDocs(ids, src.specs, src.chars) == St.SpecDocs(ids, src'.specs, src'.chars)
  {
    if ids != [] {
      var s := ids[|ids| - 1];
      SameSpecDocs(ids[..|ids| - 1], src, src');
      assert SameAt(src.specs, src'.specs, s);
      if s in src.specs { SameReads(src.specs[s].charIds, src.chars, src'.chars); }
    }
  }

  ghost predicate SamePriceAt(t: P.Table, t': P.Table, x: Id) {
    (x in t <==> x in t') && (x in t ==> P.Content(t[x]) == P.Content(t'[x]))
  }

  lemma {:induction false} SamePrices(ids: seq<Id>, t: P.Table, t': P.Table)
    requires forall x :: x in ids ==> SamePriceAt(t, t', x)
    ensures var a, b := St.ReadAll(ids, t), St.ReadAll(ids, t');
            && |a| == |b|
            && forall i :: 0 <= i < |a| ==> a[i].id == b[i].id && P.Content(a[i].value) == P.Content(b[i].value)
  {
    if ids != [] {
      SamePrices(ids[..|ids| - 1], t, t');
      assert SamePriceAt(t, t', ids[|ids| - 1]);
    }
  }

  /** The sources agree on everything document o is made of, prices up to their locks. */
  ghost predicate SameFor(src: St.Sources, src': St.Sources, o: Id) {
    && o in src.offerings && o in src'.offerings
    && src.offerings[o].content == src'.offerings[o].content
    && src.offerings[o].status == src'.offerings[o].status
    && src.offerings[o].publishedAt == src'.offerings[o].publishedAt
    && (forall s :: s in src.offerings[o].content.specIds ==> SameAt(src.specs, src'.specs, s))
    && (forall s, c :: s in src.offerings[o].content.specIds && s in src.specs && c in src.specs[s].charIds ==>
          SameAt(src.chars, src'.chars, c))
    && (forall x :: x in src.offerings[o].content.priceIds ==> SamePriceAt(src.prices, src'.prices, x))
  }

  lemma SameSourcesSameDoc(src: St.Sources, src': St.Sources, o: Id)
    requires SameFor(src, src', o)
    ensures St.SameDoc(St.Compose(src, o), St.Compose(src', o))
  {
    SameSpecDocs(src.offerings[o].content.specIds, src, src');
    SamePrices(src.offerings[o].content.priceIds, src.prices, src'.prices);
  }

  // ---- events still to be handled -------------------------------------------------------------------------

  ghost predicate OfferingQueued(w: World, o: Id) {
    exists k :: w.read.offerings <= k < |w.offerings.outbox| && IsOffering(w.offerings.outbox[k], o)
  }

  ghost predicate SpecQueued(w: World, s: Id) {
    exists k :: w.read.specs <= k < |w.specs.outbox| && IsSpec(w.specs.outbox[k], s)
  }

  ghost predicate CharQueued(w: World, c: Id) {
    exists k :: w.read.chars <= k < |w.chars.outbox| && IsChar(w.chars.outbox[k], c)
  }

  ghost predicate PriceQueued(w: World, x: Id) {
    exists k :: w.read.prices <= k < |w.prices.outbox| && IsPrice(w.prices.outbox[k], x)
  }

  ghost predicate IsOffering(e: O.Event, o: Id) { (e.Published? || e.Retired?) && e.id == o }

  ghost predicate IsSpec(e: S.Event, s: Id) { !e.Created? && e.id == s }

  ghost predicate IsChar(e: C.Event, c: Id) { !e.Created? && e.id == c }

  ghost predicate IsPrice(e: P.Event, x: Id) { (e.Updated? || e.Deleted?) && e.id == x }

  /** An event is queued whose handling, as the document stands, composes or removes it afresh. */
  ghost predicate RefreshQueued(w: World, o: Id)
    requires o in w.docs
  {
    || OfferingQueued(w, o)
    || (exists s :: SpecQueued(w, s) && St.Matches(w.docs[o], St.KSpecification, s))
    || (exists c :: CharQueued(w, c) && St.Matches(w.docs[o], St.KCharacteristic, c))
    || (exists x :: PriceQueued(w, x) && St.Matches(w.docs[o], St.KPrice, x))
  }

  // ---- how far the sources have moved since a document was composed ------------------------------------------

  /** Reading x now gives what it gave then, or a queued event says otherwise; what could not be read
      then cannot be read now, for its id was given out before. */
  ghost predicate Drift<V>(t: map<Id, V>, t': map<Id, V>, x: Id, queued: bool, used: set<Id>) {
    && (x in t ==> (x in t' && t'[x] == t[x]) || queued)
    && (x !in t ==> x !in t' && x in used)
  }

  ghost predicate PriceDrift(t: P.Table, t': P.Table, x: Id, queued: bool, used: set<Id>) {
    && (x in t ==> (x in t' && P.Content(t'[x]) == P.Content(t[x])) || queued)
    && (x !in t ==> x !in t' && x in used)
  }

  /** Document o was composed from src, and the world has drifted from src by queued events only. */
  ghost predicate Tracks(src: St.Sources, w: World, o: Id) {
    && o in w.docs && o in src.offerings && o in w.offerings.table
    && w.docs[o] == St.Compose(src, o)
    && src.offerings[o].content == w.offerings.table[o].content
    && ((src.offerings[o].status == w.offerings.table[o].status
         && src.offerings[o].publishedAt == w.offerings.table[o].publishedAt)
        || OfferingQueued(w, o))
    && (forall s :: s in src.offerings[o].content.specIds ==>
          Drift(src.specs, w.specs.table, s, SpecQueued(w, s), w.used))
    && (forall s, c :: s in src.offerings[o].content.specIds && s in src.specs && c in src.specs[s].charIds ==>
          Drift(src.chars, w.chars.table, c, CharQueued(w, c), w.used))
    && (forall x :: x in src.offerings[o].content.priceIds ==>
          PriceDrift(src.prices, w.prices.table, x, PriceQueued(w, x), w.used))
  }

  ghost predicate Tracked(w: World, o: Id) { exists src :: Tracks(src, w, o) }

  /** A tracked document is current, or a queued event will refresh it. */
  lemma TrackedIsCoherent(w: World, o: Id)
    requires Tracked(w, o)
    ensures St.SameDoc(w.docs[o], St.Compose(Sources(w), o)) || RefreshQueued(w, o)
  {
    var src :| Tracks(src, w, o);
    if !RefreshQueued(w, o) {
      var content := src.offerings[o].content;
      forall s | s in content.specIds ensures SameAt(src.specs, w.specs.table, s) {
        St.ComposedMatches(src, o, St.KSpecification, s);
        assert Drift(src.specs, w.specs.table, s, SpecQueued(w, s), w.used);
      }
      forall s, c | s in content.specIds && s in src.specs && c in src.specs[s].charIds
        ensures SameAt(src.chars, w.chars.table, c)
      {
        St.ComposedMatches(src, o, St.KCharacteristic, c);
        assert Drift(src.chars, w.chars.table, c, CharQueued(w, c), w.used);
      }
      forall x | x in content.priceIds ensures SamePriceAt(src.prices, w.prices.table, x) {
        St.ComposedMatches(src, o, St.KPrice, x);
        assert PriceDrift(src.prices, w.prices.table, x, PriceQueued(w, x), w.used);
      }
      SameSourcesSameDoc(src, Sources(w), o);
    }
  }

  // ---- ids are never reused ------------------------------------------------------------------------------------

  /** Every id in a table, in a reference or in a characteristic event has been given out. */
  ghost predicate IdsUsed(w: World) {
    && w.specs.table.Keys <= w.used && w.chars.table.Keys <= w.used && w.prices.table.Keys <= w.used
    && w.offerings.table.Keys <= w.used
    && (forall o, s :: o in w.offerings.table && s in w.offerings.table[o].content.specIds ==> s in w.used)
    && (forall o, x :: o in w.offerings.table && x in w.offerings.table[o].content.priceIds ==> x in w.used)
    && (forall s, c :: s in w.specs.table && c in w.specs.table[s].charIds ==> c in w.used)
    && (forall k :: 0 <= k < |w.chars.outbox| ==> w.chars.outbox[k].id in w.used)
  }

  lemma CachedIdsUsed(w: World, c: Id)
    requires IdsUsed(w) && c in CacheNow(w)
    ensures c in w.used
  {
    CharCache.CachedIdsWereAnnounced(w.chars.outbox[..w.cacheAt], c);
  }

  lemma SpecAdminKeepsIdsUsed(cfg: Config, w: World, a: Action)
    requires IdsUsed(w) && a.SpecAdmin?
    ensures IdsUsed(Exec(cfg, w, a))
  {
    forall c | c in CacheNow(w) ensures c in w.used { CachedIdsUsed(w, c); }
  }

  lemma PriceKeysStay(cfg: Config, w: World, p: Id, net: Net, now: int)
    requires p in w.procs
    ensures var w' := ExecTask(cfg, w, p, net, now);
            && w'.prices.table.Keys == w.prices.table.Keys
            && w'.specs == w.specs && w'.chars == w.chars && w'.used == w.used
  {
    match w.procs[p].token
    case At(n) => QueuedKeepsSources(cfg, w, p, n, net, now);
    case _ =>
  }

  lemma QueuedKeepsSources(cfg: Config, w: World, p: Id, n: Node, net: Net, now: int)
    requires p in w.procs
    ensures var w' := ExecQueued(cfg, w, p, n, net, now);
            w'.prices == w.prices && w'.specs == w.specs && w'.chars == w.chars && w'.used == w.used
  {
  }

  /** Saga calls change no offering's content. */
  lemma TaskKeepsContents(cfg: Config, w: World, p: Id, net: Net, now: int)
    requires Agreement.Inv(w) && p in w.procs
    ensures var w' := ExecTask(cfg, w, p, net, now);
            && w'.offerings.table.Keys == w.offerings.table.Keys
            && forall o :: o in w.offerings.table ==> w'.offerings.table[o].content == w.offerings.table[o].content
  {
    Agreement.TaskAdvances(cfg, w, p, net, now);
  }

  lemma CharAdminKeepsIdsUsed(cfg: Config, w: World, a: Action)
    requires IdsUsed(w) && a.CharAdmin?
    ensures IdsUsed(Exec(cfg, w, a))
  {
  }

  /** Offerings refer to what could be read when the reference was made. */
  lemma OfferingCallKeepsIdsUsed(w: World, call: O.Call, used: set<Id>)
    requires IdsUsed(w) && w.used <= used && (call.Create? ==> call.id in used)
    requires call.Create? || call.Update? ==> call.readable == Readable(w)
    ensures IdsUsed(w.(offerings := O.Serve(w.offerings, call).0, used := used))
  {
    OfferingCallShape(w, call);
  }

  lemma OfferingCallShape(w: World, call: O.Call)
    requires call.Create? || call.Update? ==> call.readable == Readable(w)
    ensures var t, t' := w.offerings.table, O.Serve(w.offerings, call).0.table;
            && t'.Keys <= t.Keys + (if call.Create? then {call.id} else {})
            && (forall o :: o in t' && o != call.id ==> o in t && t'[o] == t[o])
            && (call.id in t' ==> (call.id in t && t'[call.id].content == t[call.id].content)
                                  || O.RefsReadable(t'[call.id].content, Readable(w)))
  {
  }

  lemma IdsUsedDependsOnSources(w: World, w': World)
    requires IdsUsed(w) && Sources(w') == Sources(w) && w'.chars == w.chars && w.used <= w'.used
    ensures IdsUsed(w')
  {
  }

  lemma OfferingAdminKeepsIdsUsed(cfg: Config, w: World, a: Action)
    requires IdsUsed(w) && (a.CreateOffering? || a.UpdateOffering? || a.DeleteOffering? || a.RetireOffering?
             || a.Publish?)
    ensures IdsUsed(Exec(cfg, w, a))
  {
    match a
    case CreateOffering(o, input) => OfferingCallKeepsIdsUsed(w, O.Create(o, input, Readable(w)), w.used + {o});
    case UpdateOffering(o, input) => OfferingCallKeepsIdsUsed(w, O.Update(o, input, Readable(w)), w.used);
    case DeleteOffering(o) => OfferingCallKeepsIdsUsed(w, O.Delete(o), w.used);
    case RetireOffering(o, now) => OfferingCallKeepsIdsUsed(w, O.Retire(o, now), w.used);
    case Publish(o, p, _) =>
      var w1 := w.(offerings := O.Serve(w.offerings, O.Initiate(o)).0, used := w.used + {p});
      OfferingCallKeepsIdsUsed(w, O.Initiate(o), w.used + {p});
      var w' := Exec(cfg, w, a);
      if w' != w { IdsUsedDependsOnSources(w1, w'); }
  }

  lemma DeliverKeepsIdsUsed(w: World, topic: St.Kind, reachable: bool)
    requires IdsUsed(w)
    ensures IdsUsed(ExecDeliver(w, topic, reachable))
  {
  }

  lemma ExecKeepsIdsUsed(cfg: Config, w: World, a: Action)
    requires IdsUsed(w) && Agreement.Inv(w)
    ensures IdsUsed(Exec(cfg, w, a))
  {
    match a
    case SpecAdmin(_) => SpecAdminKeepsIdsUsed(cfg, w, a);
    case CharAdmin(_) => CharAdminKeepsIdsUsed(cfg, w, a);
    case PriceAdmin(_) => PriceAdminKeepsIdsUsed(cfg, w, a);
    case Task(p, net, now) => if p in w.procs { TaskKeepsIdsUsed(cfg, w, p, net, now); }
    case Deliver(topic, reachable) => DeliverKeepsIdsUsed(w, topic, reachable);
    case SyncCache => IdsUsedDependsOnSources(w, Exec(cfg, w, a));
    case _ => OfferingAdminKeepsIdsUsed(cfg, w, a);
  }

  lemma PriceAdminKeepsIdsUsed(cfg: Config, w: World, a: Action)
    requires IdsUsed(w) && a.PriceAdmin?
    ensures IdsUsed(Exec(cfg, w, a))
  {
  }

  lemma TaskKeepsIdsUsed(cfg: Config, w: World, p: Id, net: Net, now: int)
    requires IdsUsed(w) && Agreement.Inv(w) && p in w.procs
    ensures IdsUsed(ExecTask(cfg, w, p, net, now))
  {
    PriceKeysStay(cfg, w, p, net, now);
    TaskKeepsContents(cfg, w, p, net, now);
  }

  // ---- drifting -------------------------------------------------------------------------------------------------

  datatype Popped = Nothing | Popped(kind: St.Kind, id: Id)

  ghost predicate SpecMoves(w: World, w': World, s: Id, e: Popped) {
    && (s in w.specs.table ==> (s in w'.specs.table && w'.specs.table[s] == w.specs.table[s]) || SpecQueued(w', s))
    && (s !in w.specs.table && s in w.used ==> s !in w'.specs.table)
    && (SpecQueued(w, s) && e != Popped(St.KSpecification, s) ==> SpecQueued(w', s))
  }

  ghost predicate CharMoves(w: World, w': World, c: Id, e: Popped) {
    && (c in w.chars.table ==> (c in w'.chars.table && w'.chars.table[c] == w.chars.table[c]) || CharQueued(w', c))
    && (c !in w.chars.table && c in w.used ==> c !in w'.chars.table)
    && (CharQueued(w, c) && e != Popped(St.KCharacteristic, c) ==> CharQueued(w', c))
  }

  ghost predicate PriceMoves(w: World, w': World, x: Id, e: Popped) {
    && (x in w.prices.table ==>
          (x in w'.prices.table && P.Content(w'.prices.table[x]) == P.Content(w.prices.table[x])) || PriceQueued(w', x))
    && (x !in w.prices.table && x in w.used ==> x !in w'.prices.table)
    && (PriceQueued(w, x) && e != Popped(St.KPrice, x) ==> PriceQueued(w', x))
  }

  /** One step, seen from the entities: what changes is queued, what was queued stays queued but for
      the event handled, and ids that are gone stay gone. */
  ghost predicate Moves(w: World, w': World, e: Popped) {
    && w.used <= w'.used
    && (forall s :: SpecMoves(w, w', s, e))
    && (forall c :: CharMoves(w, w', c, e))
    && (forall x :: PriceMoves(w, w', x, e))
  }

  /** The offering behind document o: its content stays, and a change of status is queued. */
  ghost predicate OfferingMoves(w: World, w': World, o: Id) {
    && o in w.offerings.table && o in w'.offerings.table
    && w'.offerings.table[o].content == w.offerings.table[o].content
    && ((w'.offerings.table[o].status == w.offerings.table[o].status
         && w'.offerings.table[o].publishedAt == w.offerings.table[o].publishedAt) || OfferingQueued(w', o))
    && (OfferingQueued(w, o) ==> OfferingQueued(w', o))
  }

  lemma TracksCarries(src: St.Sources, w: World, w': World, o: Id, e: Popped)
    requires Tracks(src, w, o) && Moves(w, w', e) && OfferingMoves(w, w', o)
    requires o in w'.docs && w'.docs[o] == w.docs[o]
    requires e.Popped? ==> !St.Matches(w.docs[o], e.kind, e.id)
    ensures Tracks(src, w', o)
  {
    var content := src.offerings[o].content;
    forall s | s in content.specIds ensures Drift(src.specs, w'.specs.table, s, SpecQueued(w', s), w'.used) {
      St.ComposedMatches(src, o, St.KSpecification, s);
      assert SpecMoves(w, w', s, e) && Drift(src.specs, w.specs.table, s, SpecQueued(w, s), w.used);
    }
    forall s, c | s in content.specIds && s in src.specs && c in src.specs[s].charIds
      ensures Drift(src.chars, w'.chars.table, c, CharQueued(w', c), w'.used)
    {
      St.ComposedMatches(src, o, St.KCharacteristic, c);
      assert CharMoves(w, w', c, e) && Drift(src.chars, w.chars.table, c, CharQueued(w, c), w.used);
    }
    forall x | x in content.priceIds ensures PriceDrift(src.prices, w'.prices.table, x, PriceQueued(w', x), w'.used) {
      St.ComposedMatches(src, o, St.KPrice, x);
      assert PriceMoves(w, w', x, e) && PriceDrift(src.prices, w.prices.table, x, PriceQueued(w, x), w.used);
    }
  }

  /** A document composed in this very step. */
  lemma FreshIsTracked(w: World, w': World, o: Id)
    requires IdsUsed(w) && Sources(w') == Sources(w) && w'.used == w.used
    requires o in w.offerings.table && o in w'.docs && w'.docs[o] == St.Compose(Sources(w), o)
    ensures Tracked(w', o)
  {
    assert Tracks(Sources(w), w', o);
  }

  // ---- steps that handle no event -----------------------------------------------------------------------------------

  /** The reading positions stand still and the outboxes only grow. */
  ghost predicate QueuesGrow(w: World, w': World) {
    && w'.read == w.read && w.used <= w'.used
    && w.offerings.outbox <= w'.offerings.outbox && w.specs.outbox <= w'.specs.outbox
    && w.chars.outbox <= w'.chars.outbox && w.prices.outbox <= w'.prices.outbox
  }

  lemma QueuedStays(w: World, w': World, x: Id)
    requires QueuesGrow(w, w')
    ensures OfferingQueued(w, x) ==> OfferingQueued(w', x)
    ensures SpecQueued(w, x) ==> SpecQueued(w', x)
    ensures CharQueued(w, x) ==> CharQueued(w', x)
    ensures PriceQueued(w, x) ==> PriceQueued(w', x)
  {
  }

  /** A step that changes no specification, characteristic or price content. */
  lemma SettledSourcesMove(w: World, w': World, e: Popped)
    requires QueuesGrow(w, w') && w'.specs.table == w.specs.table && w'.chars.table == w.chars.table
    requires w'.prices.table.Keys == w.prices.table.Keys
    requires forall x :: x in w.prices.table ==> P.Content(w'.prices.table[x]) == P.Content(w.prices.table[x])
    ensures Moves(w, w', e)
  {
  }

  lemma SpecCallMoves(cfg: Config, w: World, a: Action, x: Id)
    requires a.SpecAdmin? && w.read.specs <= |w.specs.outbox|
    ensures SpecMoves(w, Exec(cfg, w, a), x, Nothing)
  {
    var w', n := Exec(cfg, w, a), |w.specs.outbox|;
    QueuedStays(w, w', x);
    if |w'.specs.outbox| > n && x == a.specCall.id && !a.specCall.Create? {
      assert IsSpec(w'.specs.outbox[n], x);
    }
  }

  lemma SpecAdminMoves(cfg: Config, w: World, a: Action)
    requires a.SpecAdmin? && w.read.specs <= |w.specs.outbox|
    ensures Moves(w, Exec(cfg, w, a), Nothing)
  {
    var w' := Exec(cfg, w, a);
    assert w'.chars == w.chars && w'.prices == w.prices;
    forall x ensures SpecMoves(w, w', x, Nothing) && CharMoves(w, w', x, Nothing) && PriceMoves(w, w', x, Nothing) {
      QueuedStays(w, w', x);
      SpecCallMoves(cfg, w, a, x);
    }
  }

  lemma CharCallMoves(cfg: Config, w: World, a: Action, x: Id)
    requires a.CharAdmin? && w.read.chars <= |w.chars.outbox|
    ensures CharMoves(w, Exec(cfg, w, a), x, Nothing)
  {
    var w', n := Exec(cfg, w, a), |w.chars.outbox|;
    QueuedStays(w, w', x);
    if |w'.chars.outbox| > n && x == a.charCall.id && !a.charCall.Create? {
      assert IsChar(w'.chars.outbox[n], x);
    }
  }

  lemma CharAdminMoves(cfg: Config, w: World, a: Action)
    requires a.CharAdmin? && w.read.chars <= |w.chars.outbox|
    ensures Moves(w, Exec(cfg, w, a), Nothing)
  {
    var w' := Exec(cfg, w, a);
    assert w'.specs == w.specs && w'.prices == w.prices;
    forall x ensures SpecMoves(w, w', x, Nothing) && CharMoves(w, w', x, Nothing) && PriceMoves(w, w', x, Nothing) {
      QueuedStays(w, w', x);
      CharCallMoves(cfg, w, a, x);
    }
  }

  lemma PriceCallMoves(cfg: Config, w: World, a: Action, x: Id)
    requires a.PriceAdmin? && w.read.prices <= |w.prices.outbox|
    ensures PriceMoves(w, Exec(cfg, w, a), x, Nothing)
  {
    var w', n := Exec(cfg, w, a), |w.prices.outbox|;
    QueuedStays(w, w', x);
    if |w'.prices.outbox| > n && x == a.call.id && (a.call.Update? || a.call.Delete?) {
      assert IsPrice(w'.prices.outbox[n], x);
    }
  }

  lemma PriceAdminMoves(cfg: Config, w: World, a: Action)
    requires a.PriceAdmin? && w.read.prices <= |w.prices.outbox|
    ensures Moves(w, Exec(cfg, w, a), Nothing)
  {
    var w' := Exec(cfg, w, a);
    assert w'.specs == w.specs && w'.chars == w.chars;
    forall x ensures SpecMoves(w, w', x, Nothing) && CharMoves(w, w', x, Nothing) && PriceMoves(w, w', x, Nothing) {
      QueuedStays(w, w', x);
      PriceCallMoves(cfg, w, a, x);
    }
  }

  lemma LockCallGrows(db: P.Db, x: Id, saga: Id, net: Net)
    ensures db.outbox <= PW.LockCall(db, x, saga, net).0.outbox
    ensures db.outbox <= PW.UnlockCall(db, x, net).outbox
  {
  }

  lemma TaskGrowsPrices(cfg: Config, w: World, p: Id, net: Net, now: int)
    requires p in w.procs
    ensures w.prices.outbox <= ExecTask(cfg, w, p, net, now).prices.outbox
  {
    var ids := w.procs[p].priceIds;
    match w.procs[p].token
    case At(n) => QueuedKeepsSources(cfg, w, p, n, net, now);
    case Locking(i) => if i < |ids| { LockCallGrows(w.prices, ids[i], p, net); }
    case RollingBack(_, j) => if j < |ids| { LockCallGrows(w.prices, ids[j], p, net); }
    case Unlocking(j) => if j < |ids| { LockCallGrows(w.prices, ids[j], p, net); }
    case Incident(_) =>
  }

  lemma TaskMoves(cfg: Config, w: World, p: Id, net: Net, now: int)
    requires P.Sound(w.prices.table) && p in w.procs && Visibility.OfferingsSound(w)
    ensures var w' := ExecTask(cfg, w, p, net, now); QueuesGrow(w, w') && Moves(w, w', Nothing)
  {
    var w' := ExecTask(cfg, w, p, net, now);
    PriceKeysStay(cfg, w, p, net, now);
    TaskGrowsPrices(cfg, w, p, net, now);
    Visibility.TaskServes(cfg, w, p, net, now);
    Visibility.ServedGrows(w, w');
    forall x | x in w.prices.table ensures P.Content(w'.prices.table[x]) == P.Content(w.prices.table[x]) {
      Freeze.TaskKeepsContents(cfg, w, p, net, now, x);
    }
    SettledSourcesMove(w, w', Nothing);
  }

  // ---- events handled --------------------

  lemma SpecPopMoves(w: World, w': World)
    requires w.read.specs < |w.specs.outbox|
    requires w' == w.(docs := w'.docs, read := w.read.(specs := w.read.specs + 1))
    ensures var e := w.specs.outbox[w.read.specs];
            Moves(w, w', if e.Created? then Nothing else Popped(St.KSpecification, e.id))
    ensures forall o :: OfferingQueued(w, o) ==> OfferingQueued(w', o)
  {
  }

  lemma CharPopMoves(w: World, w': World)
    requires w.read.chars < |w.chars.outbox|
    requires w' == w.(docs := w'.docs, read := w.read.(chars := w.read.chars + 1))
    ensures var e := w.chars.outbox[w.read.chars];
            Moves(w, w', if e.Created? then Nothing else Popped(St.KCharacteristic, e.id))
    ensures forall o :: OfferingQueued(w, o) ==> OfferingQueued(w', o)
  {
  }

  lemma PricePopMoves(w: World, w': World)
    requires w.read.prices < |w.prices.outbox|
    requires w' == w.(docs := w'.docs, read := w.read.(prices := w.read.prices + 1))
    ensures var e := w.prices.outbox[w.read.prices];
            Moves(w, w', if e.Updated? || e.Deleted? then Popped(St.KPrice, e.id) else Nothing)
    ensures forall o :: OfferingQueued(w, o) ==> OfferingQueued(w', o)
  {
  }

  lemma OfferingPopMoves(w: World, w': World)
    requires w.read.offerings < |w.offerings.outbox|
    requires w' == w.(docs := w'.docs, read := w.read.(offerings := w.read.offerings + 1))
    ensures Moves(w, w', Nothing)
    ensures forall o :: OfferingQueued(w, o) && !IsOffering(w.offerings.outbox[w.read.offerings], o) ==>
              OfferingQueued(w', o)
  {
  }
}

/** The store service: composed documents in two indexes, and the event consumer that refreshes them. */
module Store {
  import opened Common
  import O = Offerings
  import S = Specifications
  import C = Characteristics
  import P = Pricing

  /** The four upstream services, as far as a GET can see them. */
  datatype Sources = Sources(offerings: O.Table, specs: S.Table, chars: C.Table, prices: P.Table)

  datatype Entry<V> = Entry(id: Id, value: V)

  datatype SpecDoc = SpecDoc(id: Id, spec: S.Specification, chars: seq<Entry<C.Characteristic>>)

  datatype Doc = Doc(id: Id, name: string, description: Option<string>, status: O.Status,
                     publishedAt: Option<int>, channels: seq<string>,
                     specs: seq<SpecDoc>, prices: seq<Entry<P.Price>>)

  type Index = map<Id, Doc>

  // ---- composition ------------------------------------------------------------------------

  /** The rows behind a list of ids, in order, leaving out the ids that cannot be read. */
  function ReadAll<V>(ids: seq<Id>, t: map<Id, V>): seq<Entry<V>> {
    if ids == [] then []
    else
      var x := ids[|ids| - 1];
      ReadAll(ids[..|ids| - 1], t) + if x in t then [Entry(x, t[x])] else []
  }

  function SpecDocs(ids: seq<Id>, specs: S.Table, chars: C.Table): seq<SpecDoc> {
    if ids == [] then []
    else
      var s := ids[|ids| - 1];
      SpecDocs(ids[..|ids| - 1], specs, chars)
      + if s in specs then [SpecDoc(s, specs[s], ReadAll(specs[s].charIds, chars))] else []
  }

  function Compose(src: Sources, o: Id): Doc
    requires o in src.offerings
  {
    var off := src.offerings[o];
    Doc(o, off.content.name, off.content.description, off.status, off.publishedAt, off.content.channels,
        SpecDocs(off.content.specIds, src.specs, src.chars), ReadAll(off.content.priceIds, src.prices))
  }

  /** How many of the ids can be read. */
  function Readable<V>(ids: seq<Id>, t: map<Id, V>): nat {
    if ids == [] then 0
    else Readable(ids[..|ids| - 1], t) + if ids[|ids| - 1] in t then 1 else 0
  }

  /** The join keeps order and repetitions: a readable id at position i lands behind exactly the
      readable ids before it, and nothing else is in the result. */
  lemma {:induction false} JoinKeepsOrder<V>(ids: seq<Id>, t: map<Id, V>, i: nat)
    requires i < |ids|
    ensures |ReadAll(ids, t)| == Readable(ids, t)
    ensures Readable(ids[..i], t) <= Readable(ids, t)
    ensures ids[i] in t ==> Readable(ids[..i], t) < |ReadAll(ids, t)|
                            && ReadAll(ids, t)[Readable(ids[..i], t)] == Entry(ids[i], t[ids[i]])
  {
    var front := ids[..|ids| - 1];
    if i < |front| {
      JoinKeepsOrder(front, t, i);
      assert front[..i] == ids[..i];
    } else {
      if front == [] {
        assert Readable(front, t) == 0 && ReadAll(front, t) == [];
      } else {
        JoinKeepsOrder(front, t, 0);
      }
      assert ids[..i] == front;
    }
  }

  lemma {:induction false} JoinHolds<V>(ids: seq<Id>, t: map<Id, V>)
    ensures forall e :: e in ReadAll(ids, t) <==> e.id in ids && e.id in t && e.value == t[e.id]
  {
    if ids != [] {
      var front := ids[..|ids| - 1];
      JoinHolds(front, t);
      assert ids == front + [ids[|ids| - 1]];
    }
  }

  lemma {:induction false} SpecJoinHolds(ids: seq<Id>, specs: S.Table, chars: C.Table)
    ensures forall d :: d in SpecDocs(ids, specs, chars) <==>
              d.id in ids && d.id in specs && d.spec == specs[d.id] && d.chars == ReadAll(specs[d.id].charIds, chars)
  {
    if ids != [] {
      var front := ids[..|ids| - 1];
      SpecJoinHolds(front, specs, chars);
      assert ids == front + [ids[|ids| - 1]];
    }
  }

  /** The outer join does the same with the specifications, each with its own joined characteristics. */
  lemma {:induction false} SpecJoinKeepsOrder(ids: seq<Id>, specs: S.Table, chars: C.Table, i: nat)
    requires i < |ids|
    ensures |SpecDocs(ids, specs, chars)| == Readable(ids, specs)
    ensures Readable(ids[..i], specs) <= Readable(ids, specs)
    ensures ids[i] in specs ==> Readable(ids[..i], specs) < |SpecDocs(ids, specs, chars)|
                                && SpecDocs(ids, specs, chars)[Readable(ids[..i], specs)]
                                   == SpecDoc(ids[i], specs[ids[i]], ReadAll(specs[ids[i]].charIds, chars))
  {
    var front := ids[..|ids| - 1];
    if i < |front| {
      SpecJoinKeepsOrder(front, specs, chars, i);
      assert front[..i] == ids[..i];
    } else {
      if front == [] {
        assert Readable(front, specs) == 0 && SpecDocs(front, specs, chars) == [];
      } else {
        SpecJoinKeepsOrder(front, specs, chars, 0);
      }
      assert ids[..i] == front;
    }
  }

  // ---- what a document shows -----------------------------------------------------------------

  /** The positions of the list whose id can be read. */
  ghost function ReadablePositions<V>(ids: seq<Id>, t: map<Id, V>): set<nat> {
    set j: nat | j < |ids| && ids[j] in t
  }

  lemma {:induction false} ReadableCounts<V>(ids: seq<Id>, t: map<Id, V>)
    ensures Readable(ids, t) == |ReadablePositions(ids, t)|
  {
    if ids == [] {
      assert ReadablePositions(ids, t) == {};
    } else {
      var last := |ids| - 1;
      ReadableCounts(ids[..last], t);
      assert ReadablePositions(ids, t)
        == ReadablePositions(ids[..last], t) + if ids[last] in t then {last} else {};
    }
  }

  /** The list is the join of the ids with the table: as many entries as ids that can be read, and the entry of
      the readable id at position i stands behind those of the readable ids before it. */
  ghost predicate IsJoin<V>(es: seq<Entry<V>>, ids: seq<Id>, t: map<Id, V>) {
    && |es| == |ReadablePositions(ids, t)|
    && forall i :: 0 <= i < |ids| && ids[i] in t ==>
         var k := |ReadablePositions(ids[..i], t)|; k < |es| && es[k].id == ids[i] && es[k].value == t[ids[i]]
  }

  lemma {:induction false} ReadAllIsJoin<V>(ids: seq<Id>, t: map<Id, V>)
    ensures IsJoin(ReadAll(ids, t), ids, t)
  {
    ReadableCounts(ids, t);
    if ids == [] { assert ReadAll(ids, t) == []; } else { JoinKeepsOrder(ids, t, 0); }
    forall i | 0 <= i < |ids| && ids[i] in t
      ensures var k := |ReadablePositions(ids[..i], t)|;
              k < |ReadAll(ids, t)| && ReadAll(ids, t)[k] == Entry(ids[i], t[ids[i]])
    {
      ReadableCounts(ids[..i], t);
      JoinKeepsOrder(ids, t, i);
    }
  }

  /** The same for specifications, each with the join of its own characteristics. */
  ghost predicate IsSpecJoin(ds: seq<SpecDoc>, ids: seq<Id>, specs: S.Table, chars: C.Table) {
    && |ds| == |ReadablePositions(ids, specs)|
    && forall i :: 0 <= i < |ids| && ids[i] in specs ==>
         var k := |ReadablePositions(ids[..i], specs)|;
         && k < |ds| && ds[k].id == ids[i] && ds[k].spec == specs[ids[i]]
         && IsJoin(ds[k].chars, specs[ids[i]].charIds, chars)
  }

  lemma SpecDocsIsJoin(ids: seq<Id>, specs: S.Table, chars: C.Table)
    ensures IsSpecJoin(SpecDocs(ids, specs, chars), ids, specs, chars)
  {
    var ds := SpecDocs(ids, specs, chars);
    ReadableCounts(ids, specs);
    if ids == [] { assert ds == []; } else { SpecJoinKeepsOrder(ids, specs, chars, 0); }
    forall i | 0 <= i < |ids| && ids[i] in specs
      ensures var k := |ReadablePositions(ids[..i], specs)|;
              && k < |ds| && ds[k].id == ids[i] && ds[k].spec == specs[ids[i]]
              && IsJoin(ds[k].chars, specs[ids[i]].charIds, chars)
    {
      ReadableCounts(ids[..i], specs);
      SpecJoinKeepsOrder(ids, specs, chars, i);
      ReadAllIsJoin(specs[ids[i]].charIds, chars);
    }
  }

  /** Everything of a document but its prices is as the current rows have it. */
  ghost predicate ShowsRow(src: Sources, o: Id, d: Doc) {
    && o in src.offerings
    && var row := src.offerings[o];
       && d.id == o && d.name == row.content.name && d.description == row.content.description
       && d.status == row.status && d.publishedAt == row.publishedAt && d.channels == row.content.channels
       && IsSpecJoin(d.specs, row.content.specIds, src.specs, src.chars)
  }

  /** The document shows the offering as it is now. */
  ghost predicate Shows(src: Sources, o: Id, d: Doc) {
    ShowsRow(src, o, d) && IsJoin(d.prices, src.offerings[o].content.priceIds, src.prices)
  }

  lemma ComposedShows(src: Sources, o: Id)
    requires o in src.offerings
    ensures Shows(src, o, Compose(src, o))
  {
    SpecDocsIsJoin(src.offerings[o].content.specIds, src.specs, src.chars);
    ReadAllIsJoin(src.offerings[o].content.priceIds, src.prices);
  }

  /** One index after the syncs of some offerings: the document of each that can be read shows it, and nothing
      else changes. */
  ghost predicate Syncs(docs: Index, src: Sources, os: set<Id>, docs': Index) {
    forall o :: if o in os && o in src.offerings then o in docs' && Shows(src, o, docs'[o])
                else Untouched(docs, docs', o)
  }

  ghost predicate Untouched(docs: Index, docs': Index, o: Id) {
    (o in docs' <==> o in docs) && (o in docs ==> docs'[o] == docs[o])
  }

  lemma SyncAllSyncs(docs: Index, src: Sources, os: set<Id>)
    ensures Syncs(docs, src, os, SyncAll(docs, src, os, true)) && Syncs(docs, src, {}, SyncAll(docs, src, os, false))
  {
    forall o | o in os && o in src.offerings ensures Shows(src, o, Compose(src, o)) { ComposedShows(src, o); }
  }

  /** One index after the deletion of one document. */
  ghost predicate Drops(docs: Index, o: Id, through: bool, docs': Index) {
    if through then o !in docs' && forall x :: x != o ==> Untouched(docs, docs', x) else docs' == docs
  }

  // ---- which documents an entity is in ------------------------------------------------------

  datatype Kind = KOffering | KSpecification | KCharacteristic | KPrice

  predicate Has<V>(es: seq<Entry<V>>, x: Id) { exists i :: 0 <= i < |es| && es[i].id == x }

  /** The nested query of find_affected_offerings. */
  predicate Matches(d: Doc, kind: Kind, x: Id) {
    match kind
    case KOffering => false
    case KSpecification => exists i :: 0 <= i < |d.specs| && d.specs[i].id == x
    case KCharacteristic => exists i :: 0 <= i < |d.specs| && Has(d.specs[i].chars, x)
    case KPrice => Has(d.prices, x)
  }

  /** The current graph of offering o reaches x. */
  ghost predicate Reaches(src: Sources, o: Id, kind: Kind, x: Id)
    requires o in src.offerings
  {
    var off := src.offerings[o].content;
    match kind
    case KOffering => false
    case KSpecification => x in off.specIds
    case KCharacteristic => exists s :: s in off.specIds && s in src.specs && x in src.specs[s].charIds
    case KPrice => x in off.priceIds
  }

  ghost predicate CanRead(src: Sources, kind: Kind, x: Id) {
    match kind
    case KOffering => x in src.offerings
    case KSpecification => x in src.specs
    case KCharacteristic => x in src.chars
    case KPrice => x in src.prices
  }

  /** In a freshly composed document the query finds exactly the readable entities reached. */
  lemma ComposedMatches(src: Sources, o: Id, kind: Kind, x: Id)
    requires o in src.offerings
    ensures Matches(Compose(src, o), kind, x) <==> CanRead(src, kind, x) && Reaches(src, o, kind, x)
  {
    var d, off := Compose(src, o), src.offerings[o].content;
    match kind
    case KOffering =>
    case KPrice => HasIsRead(off.priceIds, src.prices, x);
    case KSpecification =>
      SpecJoinHolds(off.specIds, src.specs, src.chars);
      if x in off.specIds && x in src.specs {
        var want := SpecDoc(x, src.specs[x], ReadAll(src.specs[x].charIds, src.chars));
        assert want in d.specs;
        var i :| 0 <= i < |d.specs| && d.specs[i] == want;
      }
      forall i | 0 <= i < |d.specs| ensures d.specs[i].id in off.specIds && d.specs[i].id in src.specs {
        assert d.specs[i] in d.specs;
      }
    case KCharacteristic => ComposedHasChar(src, o, x);
  }

  lemma HasIsRead<V>(ids: seq<Id>, t: map<Id, V>, x: Id)
    ensures Has(ReadAll(ids, t), x) <==> x in ids && x in t
  {
    JoinHolds(ids, t);
    var es := ReadAll(ids, t);
    if x in ids && x in t {
      assert Entry(x, t[x]) in es;
      var i :| 0 <= i < |es| && es[i] == Entry(x, t[x]);
    }
    if Has(es, x) {
      var i :| 0 <= i < |es| && es[i].id == x;
      assert es[i] in es;
    }
  }

  lemma ComposedHasChar(src: Sources, o: Id, c: Id)
    requires o in src.offerings
    ensures Matches(Compose(src, o), KCharacteristic, c) <==> c in src.chars && Reaches(src, o, KCharacteristic, c)
  {
    var d, off := Compose(src, o), src.offerings[o].content;
    SpecJoinHolds(off.specIds, src.specs, src.chars);
    if Matches(d, KCharacteristic, c) {
      var i :| 0 <= i < |d.specs| && Has(d.specs[i].chars, c);
      assert d.specs[i] in d.specs;
      HasIsRead(d.specs[i].spec.charIds, src.chars, c);
    }
    if c in src.chars && Reaches(src, o, KCharacteristic, c) {
      var s :| s in off.specIds && s in src.specs && c in src.specs[s].charIds;
      var want := SpecDoc(s, src.specs[s], ReadAll(src.specs[s].charIds, src.chars));
      assert want in d.specs;
      var i :| 0 <= i < |d.specs| && d.specs[i] == want;
      HasIsRead(src.specs[s].charIds, src.chars, c);
    }
  }

  // ---- agreement up to price locks -----------------------------------------------------------

  /** Equal but for the lock fields of the prices. */
  ghost predicate SameDoc(d: Doc, e: Doc) {
    && d.(prices := []) == e.(prices := [])
    && |d.prices| == |e.prices|
    && forall i :: 0 <= i < |d.prices| ==>
         d.prices[i].id == e.prices[i].id && P.Content(d.prices[i].value) == P.Content(e.prices[i].value)
  }

  /** On a coherent store the query returns exactly the stored offerings whose current graph reaches
      the given readable entity. */
  lemma AffectedIsReached(src: Sources, docs: Index, kind: Kind, x: Id)
    requires forall o :: o in docs ==> o in src.offerings && SameDoc(docs[o], Compose(src, o))
    requires CanRead(src, kind, x)
    ensures forall o :: o in docs ==> (Matches(docs[o], kind, x) <==> Reaches(src, o, kind, x))
  {
    forall o | o in docs ensures Matches(docs[o], kind, x) <==> Reaches(src, o, kind, x) {
      ComposedMatches(src, o, kind, x);
      assert docs[o].specs == Compose(src, o).specs by {
        assert docs[o].(prices := []).specs == Compose(src, o).(prices := []).specs;
      }
    }
  }

  /** The document shows the offering as it is now, but for the locks of its prices. */
  ghost predicate ShowsContent(src: Sources, o: Id, d: Doc) {
    && ShowsRow(src, o, d)
    && var ids := src.offerings[o].content.priceIds;
       && |d.prices| == |ReadablePositions(ids, src.prices)|
       && forall i :: 0 <= i < |ids| && ids[i] in src.prices ==>
            var k := |ReadablePositions(ids[..i], src.prices)|;
            && k < |d.prices| && d.prices[k].id == ids[i]
            && var shown, now := d.prices[k].value, src.prices[ids[i]];
               && shown.name == now.name && shown.value == now.value && shown.unit == now.unit
               && shown.currency == now.currency
  }

  lemma SameDocShows(src: Sources, o: Id, d: Doc)
    requires o in src.offerings && SameDoc(d, Compose(src, o))
    ensures ShowsContent(src, o, d)
  {
    var e := Compose(src, o);
    ComposedShows(src, o);
    assert d.(prices := []).specs == e.(prices := []).specs;
  }

  // ---- events ---------------------------------------------------------------------------------

  datatype EventType =
    | OfferingCreated | OfferingUpdated | OfferingPublicationInitiated | OfferingPublished | OfferingRetired
    | SpecificationCreated | SpecificationUpdated | SpecificationDeleted
    | CharacteristicCreated | CharacteristicUpdated | CharacteristicDeleted
    | PriceCreated | PriceUpdated | PriceDeleted | PriceLocked | PriceUnlocked

  /** The event body as it arrives: any of the three fields may be missing. */
  datatype Body = Body(eventId: Option<Id>, eventType: Option<EventType>, payloadId: Option<Id>)

  /** The kind of entity whose change makes documents stale. */
  function Refreshes(t: EventType): Option<Kind> {
    match t
    case CharacteristicUpdated => Some(KCharacteristic)
    case CharacteristicDeleted => Some(KCharacteristic)
    case SpecificationUpdated => Some(KSpecification)
    case SpecificationDeleted => Some(KSpecification)
    case PriceUpdated => Some(KPrice)
    case PriceDeleted => Some(KPrice)
    case _ => None
  }

  ghost function Affected(docs: Index, kind: Kind, x: Id): set<Id> {
    set o | o in docs && Matches(docs[o], kind, x)
  }

  /** Each offering in os that can be read is composed afresh; the rest stays. */
  ghost function SyncAll(docs: Index, src: Sources, os: set<Id>, reachable: bool): Index {
    map o | o in docs.Keys + os && (o in docs || (reachable && o in src.offerings)) ::
      if reachable && o in os && o in src.offerings then Compose(src, o) else docs[o]
  }

  /** What one event does to an index; nothing, when its syncs fail silently or its handler is stopped at once. */
  ghost function Handle(docs: Index, src: Sources, t: EventType, x: Id, reachable: bool): Index {
    if t == OfferingPublished then SyncAll(docs, src, {x}, reachable)
    else if t == OfferingRetired then if reachable then docs - {x} else docs
    else if Refreshes(t).Some? then SyncAll(docs, src, Affected(docs, Refreshes(t).value, x), reachable)
    else docs
  }

  datatype State = State(mongo: Index, es: Index, processed: set<Id>)

  ghost predicate Malformed(b: Body) { b.eventId == None || b.eventType == None }

  /** The offerings an event re-syncs, looked up in the document store. */
  ghost function Targets(docs: Index, t: EventType, x: Id): set<Id> {
    if t == OfferingPublished then {x}
    else if Refreshes(t).Some? then Affected(docs, Refreshes(t).value, x)
    else {}
  }

  /** Where an exception ends the handling of an event, if any does: before it starts; in the query for
      affected offerings or the deletion from the document store; in the deletion from the search index; or
      in marking the event. */
  datatype Stop = Through | AtStart | AtFirst | AtSecond | AtMark

  /** A sync writes the document store if its offering is in `reached`, and then the search index if it is in
      `indexed` too; it is given up silently at the first failure. */
  datatype Fate = Fate(reached: set<Id>, indexed: set<Id>, stop: Stop)

  /** The event is handled now: it is well-formed and new, and the handler gets to start. */
  ghost predicate Starts(st: State, b: Body, fate: Fate) {
    !Malformed(b) && fate.stop != AtStart && b.eventId.value !in st.processed
  }

  predicate Raises(b: Body, stop: Stop)
    requires b.eventType.Some?
  {
    var t := b.eventType.value;
    match stop
    case Through => false
    case AtStart => true
    case AtFirst => b.payloadId.Some? && (t == OfferingRetired || Refreshes(t).Some?)
    case AtSecond => b.payloadId.Some? && t == OfferingRetired
    case AtMark => true
  }

  /** The document store after the branch for an event, and the search index. */
  ghost function MongoAfter(docs: Index, src: Sources, t: EventType, x: Id, fate: Fate): Index {
    if fate.stop == AtFirst && (t == OfferingRetired || Refreshes(t).Some?) then docs
    else if t == OfferingRetired then docs - {x}
    else SyncAll(docs, src, Targets(docs, t, x) * fate.reached, true)
  }

  ghost function EsAfter(st: State, src: Sources, t: EventType, x: Id, fate: Fate): Index {
    if fate.stop == AtFirst && (t == OfferingRetired || Refreshes(t).Some?) then st.es
    else if t == OfferingRetired then if fate.stop == AtSecond then st.es else st.es - {x}
    else SyncAll(st.es, src, Targets(st.mongo, t, x) * fate.reached * fate.indexed, true)
  }

  /** The consumer: malformed and repeated events change nothing, others are handled, and remembered unless an
      exception stops the handler. The exception is swallowed and the message is gone. */
  ghost function Consume(st: State, src: Sources, b: Body, fate: Fate): State {
    if !Starts(st, b, fate) then st
    else
      var seen := if Raises(b, fate.stop) then st.processed else st.processed + {b.eventId.value};
      if b.payloadId == None then State(st.mongo, st.es, seen)
      else
        var t, x := b.eventType.value, b.payloadId.value;
        State(MongoAfter(st.mongo, src, t, x, fate), EsAfter(st, src, t, x, fate), seen)
  }

  /** The offerings whose sync, or whose retirement, stops between the two stores. */
  ghost function HalfWritten(st: State, src: Sources, b: Body, fate: Fate): set<Id> {
    if !Starts(st, b, fate) || b.payloadId == None then {}
    else
      var t, x := b.eventType.value, b.payloadId.value;
      if t == OfferingRetired || (fate.stop == AtFirst && Refreshes(t).Some?) then {}
      else Targets(st.mongo, t, x) * fate.reached * src.offerings.Keys - fate.indexed
  }

  ghost function HalfRetired(st: State, b: Body, fate: Fate): set<Id> {
    if Starts(st, b, fate) && b.payloadId.Some? && b.eventType.value == OfferingRetired && fate.stop == AtSecond
    then {b.payloadId.value} * st.es.Keys
    else {}
  }

  /** Two equal indexes stay equal if and only if no stored offering was retired in the document store alone,
      and every sync that stopped between the two writes was about to write what was there already. */
  lemma IndexesStayEqual(st: State, src: Sources, b: Body, fate: Fate)
    requires st.mongo == st.es
    ensures var st' := Consume(st, src, b, fate);
            st'.mongo == st'.es <==>
              && HalfRetired(st, b, fate) == {}
              && forall o :: o in HalfWritten(st, src, b, fate) ==> o in st.es && st.es[o] == Compose(src, o)
  {
    if Starts(st, b, fate) && b.payloadId.Some? {
      var t, x := b.eventType.value, b.payloadId.value;
      var os := Targets(st.mongo, t, x) * fate.reached;
      if t == OfferingRetired {
        assert x in st.es <==> st.es - {x} != st.es;
      } else if !(fate.stop == AtFirst && Refreshes(t).Some?) {
        HalfSyncDiffers(st.mongo, src, os, fate.indexed);
        assert HalfWritten(st, src, b, fate) == os * src.offerings.Keys - fate.indexed;
      }
    }
  }

  lemma HalfSyncDiffers(docs: Index, src: Sources, os: set<Id>, indexed: set<Id>)
    ensures SyncAll(docs, src, os, true) == SyncAll(docs, src, os * indexed, true) <==>
            forall o :: o in os * src.offerings.Keys - indexed ==> o in docs && docs[o] == Compose(src, o)
  {
    var all, some := SyncAll(docs, src, os, true), SyncAll(docs, src, os * indexed, true);
    forall o | o in os * src.offerings.Keys - indexed
      ensures o in all && all[o] == Compose(src, o) && (o in some <==> o in docs) && (o in docs ==> some[o] == docs[o])
    {
    }
    if forall o :: o in os * src.offerings.Keys - indexed ==> o in docs && docs[o] == Compose(src, o) {
      assert all.Keys == some.Keys;
      forall o | o in all ensures all[o] == some[o] {}
    }
  }

  /** When nothing stops the handler the document store evolves as Handle says, whether all syncs of the event
      get through or none, and the event is remembered, so that repeating it changes nothing. */
  lemma ConsumeHandles(st: State, src: Sources, b: Body, fate: Fate)
    requires fate.stop == Through
    ensures var st' := Consume(st, src, b, fate);
            && (Starts(st, b, fate) && b.payloadId.Some? ==>
                  var t, x := b.eventType.value, b.payloadId.value;
                  && (Targets(st.mongo, t, x) <= fate.reached ==> st'.mongo == Handle(st.mongo, src, t, x, true))
                  && (t != OfferingRetired && Targets(st.mongo, t, x) !! fate.reached ==>
                        st'.mongo == Handle(st.mongo, src, t, x, false)))
            && (Starts(st, b, fate) ==> b.eventId.value in st'.processed)
            && Consume(st', src, b, fate) == st'
  {
    if Starts(st, b, fate) && b.payloadId.Some? {
      var os := Targets(st.mongo, b.eventType.value, b.payloadId.value);
      assert os <= fate.reached ==> os * fate.reached == os;
      assert os !! fate.reached ==> os * fate.reached == {};
      assert SyncAll(st.mongo, src, {}, true) == st.mongo == SyncAll(st.mongo, src, os, false);
    }
  }

  /** An event whose handler is stopped is lost: the message is gone, and nothing remembers it. Stopped before
      its first write, as a retirement is at its first deletion, it changes nothing. */
  lemma StoppedEventIsLost(st: State, src: Sources, b: Body, fate: Fate)
    requires !Malformed(b) && b.eventId.value !in st.processed && Raises(b, fate.stop)
    ensures var st' := Consume(st, src, b, fate);
            && st'.processed == st.processed
            && (fate.stop == AtStart || fate.stop == AtFirst ==> st' == st)
            && (b.payloadId.Some? ==> Handle(st.mongo, src, b.eventType.value, b.payloadId.value, false) == st.mongo)
  {
  }

  // ---- what an event does ----------------------------------------------------------------------

  /** The offerings an event is to sync: the one published, or those whose stored document holds the entity that
      was updated or deleted. */
  ghost predicate IsToSync(docs: Index, t: EventType, x: Id, o: Id) {
    match t
    case OfferingPublished => o == x
    case SpecificationUpdated => o in docs && Matches(docs[o], KSpecification, x)
    case SpecificationDeleted => o in docs && Matches(docs[o], KSpecification, x)
    case CharacteristicUpdated => o in docs && Matches(docs[o], KCharacteristic, x)
    case CharacteristicDeleted => o in docs && Matches(docs[o], KCharacteristic, x)
    case PriceUpdated => o in docs && Matches(docs[o], KPrice, x)
    case PriceDeleted => o in docs && Matches(docs[o], KPrice, x)
    case _ => false
  }

  /** A new event whose handler nothing stops: a retirement removes the document from both indexes, any other event
      leaves each offering it is to sync shown as it is now, as far as the syncs get through, and the rest alone. */
  lemma UnstoppedEventActs(st: State, src: Sources, id: Id, t: EventType, x: Id, fate: Fate)
    requires id !in st.processed && fate.stop == Through
    ensures var st' := Consume(st, src, Body(Some(id), Some(t), Some(x)), fate);
            && st'.processed == st.processed + {id}
            && if t == OfferingRetired then Drops(st.mongo, x, true, st'.mongo) && Drops(st.es, x, true, st'.es)
               else
                 var os := set o | o in fate.reached && IsToSync(st.mongo, t, x, o);
                 Syncs(st.mongo, src, os, st'.mongo) && Syncs(st.es, src, os * fate.indexed, st'.es)
  {
    if t != OfferingRetired {
      var os := set o | o in fate.reached && IsToSync(st.mongo, t, x, o);
      assert Targets(st.mongo, t, x) * fate.reached == os;
      SyncAllSyncs(st.mongo, src, os);
      SyncAllSyncs(st.es, src, os * fate.indexed);
    }
  }

  /** A new event is remembered exactly if nothing stops its handler: an exception before it starts and one in
      marking it always do, one in the first access only in a retirement or in a search for affected offerings, one
      in the second access only in a retirement. */
  lemma RememberedUnlessStopped(st: State, src: Sources, id: Id, t: EventType, x: Id, fate: Fate)
    requires id !in st.processed
    ensures var st' := Consume(st, src, Body(Some(id), Some(t), Some(x)), fate);
            && st'.processed - {id} == st.processed
            && (id in st'.processed <==>
                  match fate.stop
                  case Through => true
                  case AtStart => false
                  case AtFirst => t == OfferingCreated || t == OfferingUpdated || t == OfferingPublicationInitiated
                                  || t == OfferingPublished || t == SpecificationCreated || t == CharacteristicCreated
                                  || t == PriceCreated || t == PriceLocked || t == PriceUnlocked
                  case AtSecond => t != OfferingRetired
                  case AtMark => false)
  {
  }

  /** An event without id or type, and one that was remembered, changes nothing; one without a payload id is
      remembered and changes nothing else. */
  lemma OddEventsAreIdle(st: State, src: Sources, b: Body, fate: Fate)
    ensures var st' := Consume(st, src, b, fate);
            && (b.eventId == None || b.eventType == None || b.eventId.value in st.processed ==> st' == st)
            && (b.payloadId == None ==> st'.mongo == st.mongo && st'.es == st.es)
  {
  }

  // ---- the service object ----------------------------------------------------------------------

  class StoreService {
    var mongo: Index
    var es: Index
    var processed: set<Id>

    ghost function Value(): State reads this { State(mongo, es, processed) }

    constructor ()
      ensures Value() == State(map[], map[], {})
    {
      mongo, es, processed := map[], map[], {};
    }

    /** Nested fetch loops; None is the RuntimeError for an offering that cannot be read. */
    method FetchOfferingDetails(src: Sources, o: Id) returns (doc: Option<Doc>)
      ensures doc == if o in src.offerings then Some(Compose(src, o)) else None
      ensures doc.Some? <==> o in src.offerings
      ensures doc.Some? ==> Shows(src, o, doc.value)
    {
      if o !in src.offerings { return None; }
      var off := src.offerings[o];
      var specs: seq<SpecDoc> := [];
      var specIds := off.content.specIds;
      for i := 0 to |specIds|
        invariant specs == SpecDocs(specIds[..i], src.specs, src.chars)
      {
        assert specIds[..i + 1][..i] == specIds[..i];
        if specIds[i] in src.specs {
          var spec := src.specs[specIds[i]];
          var chars: seq<Entry<C.Characteristic>> := [];
          for j := 0 to |spec.charIds|
            invariant chars == ReadAll(spec.charIds[..j], src.chars)
          {
            assert spec.charIds[..j + 1][..j] == spec.charIds[..j];
            if spec.charIds[j] in src.chars { chars := chars + [Entry(spec.charIds[j], src.chars[spec.charIds[j]])]; }
          }
          assert spec.charIds[..|spec.charIds|] == spec.charIds;
          specs := specs + [SpecDoc(specIds[i], spec, chars)];
        }
      }
      assert specIds[..|specIds|] == specIds;
      var prices: seq<Entry<P.Price>> := [];
      var priceIds := off.content.priceIds;
      for i := 0 to |priceIds|
        invariant prices == ReadAll(priceIds[..i], src.prices)
      {
        assert priceIds[..i + 1][..i] == priceIds[..i];
        if priceIds[i] in src.prices { prices := prices + [Entry(priceIds[i], src.prices[priceIds[i]])]; }
      }
      assert priceIds[..|priceIds|] == priceIds;
      doc := Some(Doc(o, off.content.name, off.content.description, off.status, off.publishedAt,
                      off.content.channels, specs, prices));
      ComposedShows(src, o);
    }

    /** Any exception on the way is logged and swallowed: reached says whether the document store is
        written, indexed whether the search index is after it. */
    method SyncOffering(src: Sources, o: Id, reached: bool, indexed: bool)
      modifies this`mongo, this`es
      ensures mongo == SyncAll(old(mongo), src, {o}, reached)
      ensures es == SyncAll(old(es), src, {o}, reached && indexed)
    {
      SyncOfOne(mongo, src, o);
      SyncOfOne(es, src, o);
      if reached {
        var doc := FetchOfferingDetails(src, o);
        if doc.Some? {
          mongo := mongo[o := doc.value];
          if indexed { es := es[o := doc.value]; }
        }
      }
    }

    /** Two deletions; an exception in either ends it. */
    method RetireOffering(o: Id, stop: Stop) returns (ok: bool)
      modifies this`mongo, this`es
      ensures mongo == if stop == AtFirst then old(mongo) else old(mongo) - {o}
      ensures es == if stop == AtFirst || stop == AtSecond then old(es) else old(es) - {o}
      ensures Drops(old(mongo), o, stop != AtFirst, mongo) && Drops(old(es), o, stop != AtFirst && stop != AtSecond, es)
      ensures ok <==> stop != AtFirst && stop != AtSecond
    {
      if stop == AtFirst { return false; }
      mongo := mongo - {o};
      if stop == AtSecond { return false; }
      es := es - {o};
      ok := true;
    }

    /** A cursor over the matching documents, in whatever order the database yields them. */
    method FindAffected(kind: Kind, x: Id) returns (ids: seq<Id>)
      ensures forall o :: o in ids <==> o in mongo && Matches(mongo[o], kind, x)
      ensures forall i, j :: 0 <= i < j < |ids| ==> ids[i] != ids[j]
    {
      ids := [];
      var rest := mongo.Keys;
      while rest != {}
        invariant rest <= mongo.Keys
        invariant forall o :: o in ids <==> o in mongo.Keys - rest && Matches(mongo[o], kind, x)
        invariant forall i, j :: 0 <= i < j < |ids| ==> ids[i] != ids[j]
        decreases |rest|
      {
        var o :| o in rest;
        rest := rest - {o};
        if Matches(mongo[o], kind, x) { ids := ids + [o]; }
      }
    }

    /** EventConsumerService._handle_event: an exception on the way is swallowed. */
    method HandleEvent(src: Sources, b: Body, fate: Fate)
      modifies this
      ensures Value() == Consume(old(Value()), src, b, fate)
    {
      if b.eventId == None || b.eventType == None { return; }
      if fate.stop == AtStart { return; }
      if b.eventId.value in processed { return; }
      if b.payloadId.Some? {
        var ok := Dispatch(src, b.eventType.value, b.payloadId.value, fate);
        if !ok { return; }
      }
      if fate.stop == AtMark { return; }
      processed := processed + {b.eventId.value};
    }

    /** The branches of the handler, one for each kind of event; ok is false when an exception leaves it. */
    method Dispatch(src: Sources, t: EventType, x: Id, fate: Fate) returns (ok: bool)
      modifies this`mongo, this`es
      ensures mongo == MongoAfter(old(mongo), src, t, x, fate)
      ensures es == EsAfter(old(Value()), src, t, x, fate)
      ensures ok <==> !((fate.stop == AtFirst && (t == OfferingRetired || Refreshes(t).Some?))
                        || (fate.stop == AtSecond && t == OfferingRetired))
    {
      var reached, indexed := fate.reached, fate.indexed;
      ok := true;
      if t == OfferingPublished {
        OneSync(mongo, src, x, reached);
        OneSync(es, src, x, reached * indexed);
        assert {x} * reached * indexed == {x} * (reached * indexed);
        SyncOffering(src, x, x in reached, x in indexed);
      } else if t == OfferingRetired {
        ok := RetireOffering(x, fate.stop);
      } else if Refreshes(t).Some? {
        if fate.stop == AtFirst { return false; }
        RefreshAffected(src, Refreshes(t).value, x, reached, indexed);
      } else {
        NoSync(mongo, src, reached);
        NoSync(es, src, reached * indexed);
        assert {} * reached * indexed == {} * (reached * indexed);
      }
    }

    method RefreshAffected(src: Sources, kind: Kind, x: Id, reached: set<Id>, indexed: set<Id>)
      modifies this`mongo, this`es
      ensures mongo == SyncAll(old(mongo), src, Affected(old(mongo), kind, x) * reached, true)
      ensures es == SyncAll(old(es), src, Affected(old(mongo), kind, x) * reached * indexed, true)
    {
      var ids := FindAffected(kind, x);
      NoSync(mongo, src, reached);
      NoSync(es, src, reached * indexed);
      for i := 0 to |ids|
        invariant mongo == SyncAll(old(mongo), src, Elems(ids[..i]) * reached, true)
        invariant es == SyncAll(old(es), src, Elems(ids[..i]) * reached * indexed, true)
      {
        SyncOffering(src, ids[i], ids[i] in reached, ids[i] in indexed);
        SyncOneMore(old(mongo), src, ids, i, reached, ids[i] in reached);
        SyncOneMore(old(es), src, ids, i, reached * indexed, ids[i] in reached && ids[i] in indexed);
        assert Elems(ids[..i]) * reached * indexed == Elems(ids[..i]) * (reached * indexed);
        assert Elems(ids[..i + 1]) * reached * indexed == Elems(ids[..i + 1]) * (reached * indexed);
      }
      assert Elems(ids[..|ids|]) == Affected(old(mongo), kind, x);
    }
  }

  lemma NoSync(docs: Index, src: Sources, through: set<Id>)
    ensures SyncAll(docs, src, {} * through, true) == docs && SyncAll(docs, src, {}, true) == docs
  {
  }

  lemma SyncOfOne(docs: Index, src: Sources, o: Id)
    ensures SyncAll(docs, src, {o}, false) == docs
    ensures SyncAll(docs, src, {o}, true) == if o in src.offerings then docs[o := Compose(src, o)] else docs
  {
  }

  lemma OneSync(docs: Index, src: Sources, o: Id, through: set<Id>)
    ensures SyncAll(docs, src, {o}, o in through) == SyncAll(docs, src, {o} * through, true)
  {
  }

  lemma SyncOneMore(docs: Index, src: Sources, ids: seq<Id>, i: nat, through: set<Id>, now: bool)
    requires i < |ids| && (now <==> ids[i] in through)
    ensures SyncAll(SyncAll(docs, src, Elems(ids[..i]) * through, true), src, {ids[i]}, now)
         == SyncAll(docs, src, Elems(ids[..i + 1]) * through, true)
  {
    assert Elems(ids[..i + 1]) * through == Elems(ids[..i]) * through + if now then {ids[i]} else {};
  }
}

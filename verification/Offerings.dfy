/** The offering service: the lifecycle of a product offering and its outbox. */
module Offerings {
  import opened Common

  datatype Status = DRAFT | PUBLISHING | PUBLISHED | RETIRED

  datatype OfferingIn = OfferingIn(name: string, description: Option<string>, specIds: seq<Id>,
                                   priceIds: seq<Id>, channels: seq<string>)

  datatype Offering = Offering(content: OfferingIn, status: Status,
                               publishedAt: Option<int>, retiredAt: Option<int>)

  datatype Event =
    | Created(id: Id, offering: Offering)
    | Updated(id: Id, offering: Offering)
    | PublicationInitiated(id: Id, offering: Offering)
    | Published(id: Id, offering: Offering)
    | Retired(id: Id, offering: Offering)

  /** WrongState is the ValueError of the domain model; BadReference an id that is not answered with 200;
      Unavailable a service that cannot be reached. */
  datatype Reply = Ok | NotFound | WrongState | BadReference | Unavailable

  /** The ids the specification and pricing services answer with 200, and those for which the request to the
      service fails. */
  datatype Readable = Readable(specs: set<Id>, prices: set<Id>, lostSpecs: set<Id>, lostPrices: set<Id>)

  datatype Call =
    | Create(id: Id, input: OfferingIn, readable: Readable)
    | Update(id: Id, input: OfferingIn, readable: Readable)
    | Delete(id: Id)
    | Initiate(id: Id)
    | Confirm(id: Id, now: int)
    | Fail(id: Id)
    | Retire(id: Id, now: int)

  type Table = map<Id, Offering>

  datatype Db = Db(table: Table, outbox: seq<Event>)

  const EMPTY := Db(map[], [])

  // ---- the domain model -----------------------------------------------------------------

  predicate CanPublish(o: OfferingIn) {
    |o.specIds| > 0 && |o.priceIds| > 0 && |o.channels| > 0
  }

  /** The transition a call asks of one offering; None is the ValueError. */
  function Transition(o: Offering, call: Call): Option<Offering> {
    match call
    case Initiate(_) => if o.status == DRAFT && CanPublish(o.content) then Some(o.(status := PUBLISHING)) else None
    case Confirm(_, now) =>
      if o.status == PUBLISHING then Some(o.(status := PUBLISHED, publishedAt := Some(now))) else None
    case Fail(_) => if o.status == PUBLISHING then Some(o.(status := DRAFT)) else None
    case Retire(_, now) =>
      if o.status == PUBLISHED then Some(o.(status := RETIRED, retiredAt := Some(now))) else None
    case _ => None
  }

  class ProductOffering {
    const content: OfferingIn
    var status: Status
    var publishedAt: Option<int>
    var retiredAt: Option<int>

    ghost function Value(): Offering reads this { Offering(content, status, publishedAt, retiredAt) }

    constructor FromRow(row: Offering)
      ensures Value() == row
    {
      content := row.content;
      status, publishedAt, retiredAt := row.status, row.publishedAt, row.retiredAt;
    }

    method Publish() returns (ok: bool)
      modifies this
      ensures var next := Transition(old(Value()), Initiate(0));
              ok == next.Some? && Value() == if ok then next.value else old(Value())
      ensures ok <==> old(status) == DRAFT && content.specIds != [] && content.priceIds != [] && content.channels != []
      ensures Value() == if ok then old(Value()).(status := PUBLISHING) else old(Value())
    {
      if status != DRAFT || !CanPublish(content) { return false; }
      status := PUBLISHING;
      ok := true;
    }

    method ConfirmPublication(now: int) returns (ok: bool)
      modifies this
      ensures var next := Transition(old(Value()), Confirm(0, now));
              ok == next.Some? && Value() == if ok then next.value else old(Value())
      ensures ok <==> old(status) == PUBLISHING
      ensures Value() == if ok then old(Value()).(status := PUBLISHED, publishedAt := Some(now)) else old(Value())
    {
      if status != PUBLISHING { return false; }
      status, publishedAt := PUBLISHED, Some(now);
      ok := true;
    }

    method FailPublication() returns (ok: bool)
      modifies this
      ensures var next := Transition(old(Value()), Fail(0));
              ok == next.Some? && Value() == if ok then next.value else old(Value())
      ensures ok <==> old(status) == PUBLISHING
      ensures Value() == if ok then old(Value()).(status := DRAFT) else old(Value())
    {
      if status != PUBLISHING { return false; }
      status := DRAFT;
      ok := true;
    }

    method Retire(now: int) returns (ok: bool)
      modifies this
      ensures var next := Transition(old(Value()), Call.Retire(0, now));
              ok == next.Some? && Value() == if ok then next.value else old(Value())
      ensures ok <==> old(status) == PUBLISHED
      ensures Value() == if ok then old(Value()).(status := RETIRED, retiredAt := Some(now)) else old(Value())
    {
      if status != PUBLISHED { return false; }
      status, retiredAt := RETIRED, Some(now);
      ok := true;
    }
  }

  // ---- the service ----------------------------------------------------------------------

  ghost predicate RefsReadable(input: OfferingIn, readable: Readable) {
    && (forall s :: s in input.specIds ==> s in readable.specs && s !in readable.lostSpecs)
    && (forall p :: p in input.priceIds ==> p in readable.prices && p !in readable.lostPrices)
  }

  /** The first fault met when the ids are asked for in order. */
  function ListFault(ids: seq<Id>, known: set<Id>, lost: set<Id>): (r: Reply)
    ensures r == Ok <==> forall x :: x in ids ==> x in known && x !in lost
    ensures r == Ok || r == BadReference || r == Unavailable
  {
    if ids == [] then Ok
    else if ids[0] in lost then Unavailable
    else if ids[0] !in known then BadReference
    else ListFault(ids[1..], known, lost)
  }

  /** Specifications are asked for first. */
  function RefsFault(input: OfferingIn, readable: Readable): (r: Reply)
    ensures r == Ok <==> RefsReadable(input, readable)
  {
    var fault := ListFault(input.specIds, readable.specs, readable.lostSpecs);
    if fault != Ok then fault else ListFault(input.priceIds, readable.prices, readable.lostPrices)
  }

  /** A failed publication emits no event; every other transition does. */
  function Emitted(call: Call, o: Offering): seq<Event> {
    match call
    case Initiate(x) => [PublicationInitiated(x, o)]
    case Confirm(x, _) => [Published(x, o)]
    case Retire(x, _) => [Retired(x, o)]
    case _ => []
  }

  ghost function Serve(db: Db, call: Call): (Db, Reply) {
    match call
    case Create(x, input, readable) =>
      if !RefsReadable(input, readable) then (db, RefsFault(input, readable))
      else if x in db.table then (db, BadReference)
      else
        var o := Offering(input, DRAFT, None, None);
        (Db(db.table[x := o], db.outbox + [Created(x, o)]), Ok)
    case Update(x, input, readable) =>
      if x !in db.table then (db, NotFound)
      else if db.table[x].status != DRAFT then (db, WrongState)
      else if !RefsReadable(input, readable) then (db, RefsFault(input, readable))
      else
        var o := db.table[x].(content := input);
        (Db(db.table[x := o], db.outbox + [Updated(x, o)]), Ok)
    case Delete(x) =>
      if x !in db.table then (db, NotFound)
      else if db.table[x].status != DRAFT then (db, WrongState)
      else (Db(db.table - {x}, db.outbox), Ok)
    case _ =>
      if call.id !in db.table then (db, NotFound)
      else
        var next := Transition(db.table[call.id], call);
        if next == None then (db, WrongState)
        else (Db(db.table[call.id := next.value], db.outbox + Emitted(call, next.value)), Ok)
  }

  ghost function ServeAll(db: Db, calls: seq<Call>): Db {
    if calls == [] then db
    else Serve(ServeAll(db, calls[..|calls| - 1]), calls[|calls| - 1]).0
  }

  // ---- what each call promises ------------------------------------------------------------

  /** Nothing but row x differs. */
  ghost predicate RestStays(t: Table, t': Table, x: Id) {
    && (forall y :: y != x ==> (y in t' <==> y in t))
    && (forall y :: y != x && y in t ==> t'[y] == t[y])
  }

  /** Row x becomes `row`, and one event is told. */
  ghost predicate Becomes(db: Db, db': Db, x: Id, row: Offering, e: Event) {
    && x in db'.table && db'.table[x] == row && RestStays(db.table, db'.table, x) && db'.outbox == db.outbox + [e]
  }

  /** Position i of the list is the first whose GET fails or is not answered with 200. */
  ghost predicate FaultAt(ids: seq<Id>, known: set<Id>, lost: set<Id>, i: nat) {
    && i < |ids| && (ids[i] in lost || ids[i] !in known)
    && forall j :: 0 <= j < i ==> ids[j] in known && ids[j] !in lost
  }

  ghost predicate NoFault(ids: seq<Id>, known: set<Id>, lost: set<Id>) {
    forall j :: 0 <= j < |ids| ==> ids[j] in known && ids[j] !in lost
  }

  ghost predicate FaultIs(ids: seq<Id>, known: set<Id>, lost: set<Id>, r: Reply) {
    exists i: nat :: FaultAt(ids, known, lost, i) && r == if ids[i] in lost then Unavailable else BadReference
  }

  /** The reply to a reference check: that of the first fault, specifications first. */
  ghost predicate Checks(input: OfferingIn, known: Readable, r: Reply) {
    && (r == Ok <==> NoFault(input.specIds, known.specs, known.lostSpecs)
                     && NoFault(input.priceIds, known.prices, known.lostPrices))
    && (r != Ok ==>
          || FaultIs(input.specIds, known.specs, known.lostSpecs, r)
          || (NoFault(input.specIds, known.specs, known.lostSpecs)
              && FaultIs(input.priceIds, known.prices, known.lostPrices, r)))
  }

  lemma {:induction false} ListFaultIsFirst(ids: seq<Id>, known: set<Id>, lost: set<Id>)
    ensures var r := ListFault(ids, known, lost);
            if r == Ok then NoFault(ids, known, lost) else FaultIs(ids, known, lost, r) && !NoFault(ids, known, lost)
  {
    if ids != [] {
      var r, rest := ListFault(ids, known, lost), ids[1..];
      if ids[0] in lost || ids[0] !in known {
        assert FaultAt(ids, known, lost, 0);
      } else {
        ListFaultIsFirst(rest, known, lost);
        if r != Ok {
          var i: nat :| FaultAt(rest, known, lost, i) && r == if rest[i] in lost then Unavailable else BadReference;
          assert FaultAt(ids, known, lost, i + 1) && ids[i + 1] == rest[i];
        }
      }
    }
  }

  lemma RefsFaultChecks(input: OfferingIn, readable: Readable)
    ensures Checks(input, readable, RefsFault(input, readable))
  {
    ListFaultIsFirst(input.specIds, readable.specs, readable.lostSpecs);
    ListFaultIsFirst(input.priceIds, readable.prices, readable.lostPrices);
  }

  /** A new offering is a DRAFT with the content it was given. */
  ghost predicate Creates(db: Db, x: Id, input: OfferingIn, readable: Readable, db': Db, r: Reply) {
    if Checks(input, readable, Ok) && x !in db.table then
      r == Ok && Becomes(db, db', x, Offering(input, DRAFT, None, None), Created(x, Offering(input, DRAFT, None, None)))
    else
      db' == db && r != Ok && (Checks(input, readable, r) || (Checks(input, readable, Ok) && r == BadReference))
  }

  /** Only a DRAFT is changed: it gets the content it was given. */
  ghost predicate Updates(db: Db, x: Id, input: OfferingIn, readable: Readable, db': Db, r: Reply) {
    if x !in db.table then r == NotFound && db' == db
    else if db.table[x].status != DRAFT then r == WrongState && db' == db
    else
      && Checks(input, readable, r)
      && if r == Ok then
           var row := Offering(input, DRAFT, db.table[x].publishedAt, db.table[x].retiredAt);
           Becomes(db, db', x, row, Updated(x, row))
         else db' == db
  }

  /** Only a DRAFT is removed, in silence. */
  ghost predicate Deletes(db: Db, x: Id, db': Db, r: Reply) {
    && (r == NotFound <==> x !in db.table)
    && (r == WrongState <==> x in db.table && db.table[x].status != DRAFT)
    && (r == Ok || r == NotFound || r == WrongState)
    && if r == Ok then x !in db'.table && RestStays(db.table, db'.table, x) && db'.outbox == db.outbox else db' == db
  }

  /** A publication starts exactly for a DRAFT with a specification, a price and a channel. */
  ghost predicate Initiates(db: Db, x: Id, db': Db, r: Reply) {
    && (r == NotFound <==> x !in db.table)
    && (r == Ok <==> x in db.table && db.table[x].status == DRAFT && db.table[x].content.specIds != []
                     && db.table[x].content.priceIds != [] && db.table[x].content.channels != [])
    && (r == Ok || r == NotFound || r == WrongState)
    && if r == Ok then
         var row := db.table[x].(status := PUBLISHING);
         Becomes(db, db', x, row, PublicationInitiated(x, row))
       else db' == db
  }

  ghost predicate Confirms(db: Db, x: Id, now: int, db': Db, r: Reply) {
    && (r == NotFound <==> x !in db.table)
    && (r == Ok <==> x in db.table && db.table[x].status == PUBLISHING)
    && (r == Ok || r == NotFound || r == WrongState)
    && if r == Ok then
         var row := db.table[x].(status := PUBLISHED, publishedAt := Some(now));
         Becomes(db, db', x, row, Published(x, row))
       else db' == db
  }

  /** A failed publication is a DRAFT again, in silence. */
  ghost predicate Fails(db: Db, x: Id, db': Db, r: Reply) {
    && (r == NotFound <==> x !in db.table)
    && (r == Ok <==> x in db.table && db.table[x].status == PUBLISHING)
    && (r == Ok || r == NotFound || r == WrongState)
    && if r == Ok then
         && x in db'.table && db'.table[x] == db.table[x].(status := DRAFT)
         && RestStays(db.table, db'.table, x) && db'.outbox == db.outbox
       else db' == db
  }

  ghost predicate Retires(db: Db, x: Id, now: int, db': Db, r: Reply) {
    && (r == NotFound <==> x !in db.table)
    && (r == Ok <==> x in db.table && db.table[x].status == PUBLISHED)
    && (r == Ok || r == NotFound || r == WrongState)
    && if r == Ok then
         var row := db.table[x].(status := RETIRED, retiredAt := Some(now));
         Becomes(db, db', x, row, Retired(x, row))
       else db' == db
  }

  lemma ServeKeepsPromises(db: Db, call: Call)
    ensures var (db', r) := Serve(db, call);
            match call
            case Create(x, input, readable) => Creates(db, x, input, readable, db', r)
            case Update(x, input, readable) => Updates(db, x, input, readable, db', r)
            case Delete(x) => Deletes(db, x, db', r)
            case Initiate(x) => Initiates(db, x, db', r)
            case Confirm(x, now) => Confirms(db, x, now, db', r)
            case Fail(x) => Fails(db, x, db', r)
            case Retire(x, now) => Retires(db, x, now, db', r)
  {
    if call.Create? || call.Update? { RefsFaultChecks(call.input, call.readable); }
    assert db.outbox + [] == db.outbox;
  }

  /** The variables a process instance is started with. */
  datatype Start = Start(offering: Id, specIds: seq<Id>, priceIds: seq<Id>)

  class OfferingService {
    var table: Table
    var outbox: seq<Event>

    ghost function Value(): Db reads this { Db(table, outbox) }

    constructor ()
      ensures Value() == EMPTY
    {
      table, outbox := map[], [];
    }

    /** One GET per referenced id, specifications first; the first fault ends it. */
    method ValidateExternalIds(input: OfferingIn, readable: Readable) returns (r: Reply)
      ensures r == RefsFault(input, readable)
      ensures r == Ok <==> RefsReadable(input, readable)
      ensures Checks(input, readable, r)
    {
      RefsFaultChecks(input, readable);
      r := ValidateIds(input.specIds, readable.specs, readable.lostSpecs);
      if r == Ok { r := ValidateIds(input.priceIds, readable.prices, readable.lostPrices); }
    }

    method ValidateIds(ids: seq<Id>, known: set<Id>, lost: set<Id>) returns (r: Reply)
      ensures r == ListFault(ids, known, lost)
    {
      for i := 0 to |ids|
        invariant ListFault(ids, known, lost) == ListFault(ids[i..], known, lost)
      {
        assert ids[i..][1..] == ids[i + 1..];
        if ids[i] in lost { return Unavailable; }
        if ids[i] !in known { return BadReference; }
      }
      r := Ok;
    }

    method CreateOffering(x: Id, input: OfferingIn, readable: Readable) returns (r: Reply)
      modifies this
      ensures (Value(), r) == Serve(old(Value()), Create(x, input, readable))
      ensures Creates(old(Value()), x, input, readable, Value(), r)
    {
      ServeKeepsPromises(Value(), Call.Create(x, input, readable));
      r := ValidateExternalIds(input, readable);
      if r != Ok { return; }
      if x in table { return BadReference; }
      table := table[x := Offering(input, DRAFT, None, None)];
      outbox := outbox + [Created(x, table[x])];
      r := Ok;
    }

    method UpdateOffering(x: Id, input: OfferingIn, readable: Readable) returns (r: Reply)
      modifies this
      ensures (Value(), r) == Serve(old(Value()), Update(x, input, readable))
      ensures Updates(old(Value()), x, input, readable, Value(), r)
    {
      ServeKeepsPromises(Value(), Call.Update(x, input, readable));
      if x !in table { return NotFound; }
      if table[x].status != DRAFT { return WrongState; }
      r := ValidateExternalIds(input, readable);
      if r != Ok { return; }
      table := table[x := table[x].(content := input)];
      outbox := outbox + [Updated(x, table[x])];
      r := Ok;
    }

    method DeleteOffering(x: Id) returns (r: Reply)
      modifies this
      ensures (Value(), r) == Serve(old(Value()), Delete(x))
      ensures Deletes(old(Value()), x, Value(), r)
    {
      ServeKeepsPromises(Value(), Call.Delete(x));
      if x !in table { return NotFound; }
      if table[x].status != DRAFT { return WrongState; }
      table := table - {x};
      r := Ok;
    }

    /** Then asks Camunda to start a process instance with the lists copied from the row. A refusal, or a
        request that fails, is logged: the offering stays PUBLISHING all the same. */
    method InitiatePublication(x: Id, camunda: bool) returns (r: Reply, started: Option<Start>)
      modifies this
      ensures (Value(), r) == Serve(old(Value()), Initiate(x))
      ensures Initiates(old(Value()), x, Value(), r)
      ensures started.Some? <==> r == Ok && camunda
      ensures started.Some? ==> x in table && started.value == Start(x, table[x].content.specIds,
              table[x].content.priceIds)
    {
      ServeKeepsPromises(Value(), Call.Initiate(x));
      started := None;
      if x !in table { return NotFound, None; }
      var domain := new ProductOffering.FromRow(table[x]);
      var ok := domain.Publish();
      if !ok { return WrongState, None; }
      table := table[x := table[x].(status := domain.status)];
      outbox := outbox + [PublicationInitiated(x, table[x])];
      if camunda { started := Some(Start(x, table[x].content.specIds, table[x].content.priceIds)); }
      r := Ok;
    }

    method ConfirmPublication(x: Id, now: int) returns (r: Reply)
      modifies this
      ensures (Value(), r) == Serve(old(Value()), Confirm(x, now))
      ensures Confirms(old(Value()), x, now, Value(), r)
    {
      ServeKeepsPromises(Value(), Call.Confirm(x, now));
      if x !in table { return NotFound; }
      var domain := new ProductOffering.FromRow(table[x]);
      var ok := domain.ConfirmPublication(now);
      if !ok { return WrongState; }
      table := table[x := table[x].(status := domain.status, publishedAt := domain.publishedAt)];
      outbox := outbox + [Published(x, table[x])];
      r := Ok;
    }

    method FailPublication(x: Id) returns (r: Reply)
      modifies this
      ensures (Value(), r) == Serve(old(Value()), Fail(x))
      ensures Fails(old(Value()), x, Value(), r)
    {
      ServeKeepsPromises(Value(), Call.Fail(x));
      if x !in table { return NotFound; }
      var domain := new ProductOffering.FromRow(table[x]);
      var ok := domain.FailPublication();
      if !ok { return WrongState; }
      table := table[x := table[x].(status := domain.status)];
      assert outbox + [] == outbox;
      r := Ok;
    }

    method RetireOffering(x: Id, now: int) returns (r: Reply)
      modifies this
      ensures (Value(), r) == Serve(old(Value()), Retire(x, now))
      ensures Retires(old(Value()), x, now, Value(), r)
    {
      ServeKeepsPromises(Value(), Call.Retire(x, now));
      if x !in table { return NotFound; }
      var domain := new ProductOffering.FromRow(table[x]);
      var ok := domain.Retire(now);
      if !ok { return WrongState; }
      table := table[x := table[x].(status := domain.status, retiredAt := domain.retiredAt)];
      outbox := outbox + [Retired(x, table[x])];
      r := Ok;
    }
  }

  // ---- invariants of any sequence of calls ----------------------------------------------

  ghost predicate Live(o: Offering) { o.status == PUBLISHED || o.status == RETIRED }

  ghost predicate RowSound(o: Offering) {
    && (o.publishedAt.Some? <==> Live(o))
    && (o.retiredAt.Some? <==> o.status == RETIRED)
    && (o.status != DRAFT ==> CanPublish(o.content))
  }

  /** published_at and retired_at are set exactly in their states, and outside DRAFT an offering has
      a specification, a price and a channel. */
  ghost predicate Sound(t: Table) {
    forall x :: x in t ==> RowSound(t[x])
  }

  ghost predicate IsPublished(e: Event, x: Id) { e.Published? && e.id == x }

  ghost predicate IsRetired(e: Event, x: Id) { e.Retired? && e.id == x }

  /** A Published event names an offering that went live and is the only one for it; if that
      offering is retired by now, a Retired event follows. */
  ghost predicate PublishedWell(db: Db, k: nat)
    requires k < |db.outbox|
  {
    db.outbox[k].Published? ==>
      var x := db.outbox[k].id;
      && x in db.table && Live(db.table[x])
      && (forall m :: 0 <= m < |db.outbox| && IsPublished(db.outbox[m], x) ==> m == k)
      && (db.table[x].status == RETIRED ==> exists m :: k < m < |db.outbox| && IsRetired(db.outbox[m], x))
  }

  /** A Retired event names a retired offering, is the only one for it, and follows its Published event. */
  ghost predicate RetiredWell(db: Db, k: nat)
    requires k < |db.outbox|
  {
    db.outbox[k].Retired? ==>
      var x := db.outbox[k].id;
      && x in db.table && db.table[x].status == RETIRED
      && (forall m :: 0 <= m < |db.outbox| && IsRetired(db.outbox[m], x) ==> m == k)
      && (exists m :: 0 <= m < k && IsPublished(db.outbox[m], x))
  }

  ghost predicate Announced(db: Db) {
    && (forall k :: 0 <= k < |db.outbox| ==> PublishedWell(db, k) && RetiredWell(db, k))
    && (forall x :: x in db.table && Live(db.table[x]) ==>
          exists k :: 0 <= k < |db.outbox| && IsPublished(db.outbox[k], x))
  }

  /** What one call may do to one row: the edges of the lifecycle, with the content frozen outside DRAFT. */
  ghost predicate RowStep(t: Table, t': Table, x: Id) {
    && (x in t && x !in t' ==> t[x].status == DRAFT)
    && (x !in t && x in t' ==> t'[x].status == DRAFT)
    && (x in t && x in t' ==>
          && (Live(t[x]) ==> t'[x].publishedAt == t[x].publishedAt)
          && (t[x].content != t'[x].content ==> t[x].status == DRAFT && t'[x].status == DRAFT)
          && (t[x].status != t'[x].status ==>
                match t[x].status
                case DRAFT => t'[x].status == PUBLISHING
                case PUBLISHING => t'[x].status == PUBLISHED || t'[x].status == DRAFT
                case PUBLISHED => t'[x].status == RETIRED
                case RETIRED => false))
  }

  lemma ServeSteps(db: Db, call: Call)
    requires Sound(db.table)
    ensures var t' := Serve(db, call).0.table; Sound(t') && forall x :: RowStep(db.table, t', x)
  {
  }

  /** db' is db after one call that emitted e. */
  ghost predicate Grows(db: Db, db': Db, e: Event) {
    && db'.outbox == db.outbox + [e]
    && db'.table.Keys == db.table.Keys + {e.id}
    && (forall x :: x in db.table && x != e.id ==> db'.table[x] == db.table[x])
    && (e.id in db.table && Live(db.table[e.id]) ==> e.Retired?)
    && (e.Retired? ==> e.id in db.table && db.table[e.id].status == PUBLISHED && db'.table[e.id].status == RETIRED)
    && (e.Published? ==> db'.table[e.id].status == PUBLISHED)
    && (!e.Retired? && !e.Published? ==> !Live(db'.table[e.id]))
  }

  lemma PublishedStaysWell(db: Db, db': Db, e: Event, k: nat)
    requires Announced(db) && Grows(db, db', e) && k < |db'.outbox|
    ensures PublishedWell(db', k)
  {
    var n, x := |db.outbox|, db'.outbox[k].id;
    if k < n && db.outbox[k].Published? {
      assert PublishedWell(db, k);
      if x == e.id {
        assert IsRetired(db'.outbox[n], x);
      } else if db'.table[x].status == RETIRED {
        var m :| k < m < n && IsRetired(db.outbox[m], x);
        assert IsRetired(db'.outbox[m], x);
      }
    } else if k == n && e.Published? {
      forall m | 0 <= m < n ensures !IsPublished(db.outbox[m], x) { assert PublishedWell(db, m); }
    }
  }

  lemma RetiredStaysWell(db: Db, db': Db, e: Event, k: nat)
    requires Announced(db) && Grows(db, db', e) && k < |db'.outbox|
    ensures RetiredWell(db', k)
  {
    var n, x := |db.outbox|, db'.outbox[k].id;
    if db'.outbox[k].Retired? {
      if k == n {
        forall m | 0 <= m < n ensures !IsRetired(db.outbox[m], x) { assert RetiredWell(db, m); }
      } else {
        assert RetiredWell(db, k);
      }
      var m :| 0 <= m < k && IsPublished(db.outbox[m], x);
      assert IsPublished(db'.outbox[m], x);
    }
  }

  lemma AnnouncesOneMore(db: Db, db': Db, e: Event)
    requires Announced(db) && Grows(db, db', e)
    ensures Announced(db')
  {
    forall k | 0 <= k < |db'.outbox| ensures PublishedWell(db', k) && RetiredWell(db', k) {
      PublishedStaysWell(db, db', e, k);
      RetiredStaysWell(db, db', e, k);
    }
    forall x | x in db'.table && Live(db'.table[x])
      ensures exists k :: 0 <= k < |db'.outbox| && IsPublished(db'.outbox[k], x)
    {
      if x == e.id && e.Published? {
        assert IsPublished(db'.outbox[|db.outbox|], x);
      } else {
        var k :| 0 <= k < |db.outbox| && IsPublished(db.outbox[k], x);
        assert IsPublished(db'.outbox[k], x);
      }
    }
  }

  lemma ServeAnnounces(db: Db, call: Call)
    requires Announced(db)
    ensures Announced(Serve(db, call).0)
  {
    var db' := Serve(db, call).0;
    if |db'.outbox| > |db.outbox| {
      assert Grows(db, db', db'.outbox[|db.outbox|]);
      AnnouncesOneMore(db, db', db'.outbox[|db.outbox|]);
    } else {
      SilentCallAnnounces(db, call);
    }
  }

  /** Deleting a draft and failing a publication emit nothing, and concern no live offering. */
  lemma SilentCallAnnounces(db: Db, call: Call)
    requires Announced(db) && |Serve(db, call).0.outbox| == |db.outbox|
    ensures Announced(Serve(db, call).0)
  {
    var db' := Serve(db, call).0;
    assert db'.outbox == db.outbox;
    assert forall x :: x in db'.table && Live(db'.table[x]) ==> x in db.table && db.table[x] == db'.table[x];
    assert forall x :: x in db.table && Live(db.table[x]) ==> x in db'.table && db.table[x] == db'.table[x];
    forall k | 0 <= k < |db.outbox| ensures PublishedWell(db', k) && RetiredWell(db', k) {
      assert PublishedWell(db, k) && RetiredWell(db, k);
    }
  }

  lemma {:induction false} CallsKeepInvariants(calls: seq<Call>)
    ensures Sound(ServeAll(EMPTY, calls).table) && Announced(ServeAll(EMPTY, calls))
  {
    if calls != [] {
      var front := calls[..|calls| - 1];
      CallsKeepInvariants(front);
      ServeSteps(ServeAll(EMPTY, front), calls[|calls| - 1]);
      ServeAnnounces(ServeAll(EMPTY, front), calls[|calls| - 1]);
    }
  }

  /** After any calls an offering is announced as published at most once, as retired at most once,
      and never as retired before it was announced as published. */
  lemma AnnouncedOnceAndInOrder(calls: seq<Call>, i: nat, j: nat)
    requires var es := ServeAll(EMPTY, calls).outbox; i < |es| && j < |es| && es[i].id == es[j].id
    ensures var es := ServeAll(EMPTY, calls).outbox;
            && (es[i].Published? && es[j].Published? ==> i == j)
            && (es[i].Retired? && es[j].Retired? ==> i == j)
            && (es[i].Published? && es[j].Retired? ==> i < j)
  {
    CallsKeepInvariants(calls);
    var es := ServeAll(EMPTY, calls).outbox;
    assert PublishedWell(ServeAll(EMPTY, calls), i) && RetiredWell(ServeAll(EMPTY, calls), i);
    assert RetiredWell(ServeAll(EMPTY, calls), j);
    if es[i].Published? && es[j].Retired? {
      var m :| 0 <= m < j && IsPublished(es[m], es[j].id);
      assert IsPublished(es[i], es[i].id);
    }
    assert es[j].Published? ==> IsPublished(es[j], es[i].id);
    assert es[j].Retired? ==> IsRetired(es[j], es[i].id);
  }

  // ---- the status history ---------------------------------------------------------------

  /** The statuses offering x goes through, without repetitions. */
  ghost function History(calls: seq<Call>, x: Id): seq<Status> {
    if calls == [] then []
    else
      var h := History(calls[..|calls| - 1], x);
      var t := ServeAll(EMPTY, calls).table;
      if x in t && (h == [] || h[|h| - 1] != t[x].status) then h + [t[x].status] else h
  }

  ghost function RoundTrips(n: nat): seq<Status> {
    if n == 0 then [] else RoundTrips(n - 1) + [DRAFT, PUBLISHING]
  }

  /** DRAFT, any number of failed publications, then possibly one that succeeds, then possibly retired. */
  ghost predicate Lifecycle(h: seq<Status>, n: nat) {
    || h == RoundTrips(n) + [DRAFT]
    || h == RoundTrips(n + 1)
    || h == RoundTrips(n + 1) + [PUBLISHED]
    || h == RoundTrips(n + 1) + [PUBLISHED, RETIRED]
  }

  lemma {:induction false} HistoryIsLifecycle(calls: seq<Call>, x: Id)
    ensures var h, t := History(calls, x), ServeAll(EMPTY, calls).table;
            && (x in t ==> h != [] && h[|h| - 1] == t[x].status)
            && (x !in t && h != [] ==> h[|h| - 1] == DRAFT)
            && (h != [] ==> exists n :: Lifecycle(h, n))
  {
    if calls != [] {
      var front := calls[..|calls| - 1];
      HistoryIsLifecycle(front, x);
      CallsKeepInvariants(front);
      ServeSteps(ServeAll(EMPTY, front), calls[|calls| - 1]);
      var t, t' := ServeAll(EMPTY, front).table, ServeAll(EMPTY, calls).table;
      var h, h' := History(front, x), History(calls, x);
      assert RowStep(t, t', x);
      if h == [] {
        if h' != [] {
          assert h' == RoundTrips(0) + [DRAFT];
          assert Lifecycle(h', 0);
        }
      } else if h' != h {
        var n :| Lifecycle(h, n);
        LifecycleGrows(h, n, t'[x].status);
      }
    }
  }

  lemma LifecycleGrows(h: seq<Status>, n: nat, s: Status)
    requires Lifecycle(h, n)
    requires match h[|h| - 1]
             case DRAFT => s == PUBLISHING
             case PUBLISHING => s == PUBLISHED || s == DRAFT
             case PUBLISHED => s == RETIRED
             case RETIRED => false
    ensures exists m :: Lifecycle(h + [s], m)
  {
    match h[|h| - 1]
    case DRAFT =>
      assert h + [s] == RoundTrips(n) + [DRAFT, PUBLISHING];
      assert Lifecycle(h + [s], n);
    case PUBLISHING =>
      assert Lifecycle(h + [s], if s == DRAFT then n + 1 else n);
    case PUBLISHED =>
      assert h + [s] == RoundTrips(n + 1) + [PUBLISHED, RETIRED];
      assert Lifecycle(h + [s], n);
  }

  lemma LiveRowStays(db: Db, call: Call, x: Id)
    requires Sound(db.table) && x in db.table && Live(db.table[x])
    ensures var t' := Serve(db, call).0.table;
            x in t' && Live(t'[x]) && t'[x].content == db.table[x].content
              && t'[x].publishedAt == db.table[x].publishedAt
  {
    ServeSteps(db, call);
    assert RowStep(db.table, Serve(db, call).0.table, x);
  }

  /** Once published, the content of an offering is fixed for ever: no later calls change or remove it. */
  lemma {:induction false} LiveContentIsFrozen(calls: seq<Call>, more: seq<Call>, x: Id)
    requires var t := ServeAll(EMPTY, calls).table; x in t && Live(t[x])
    ensures var t, t' := ServeAll(EMPTY, calls).table, ServeAll(EMPTY, calls + more).table;
            x in t' && Live(t'[x]) && t'[x].content == t[x].content && t'[x].publishedAt == t[x].publishedAt
  {
    if more == [] {
      assert calls + more == calls;
    } else {
      var front := more[..|more| - 1];
      LiveContentIsFrozen(calls, front, x);
      assert (calls + more)[..|calls + more| - 1] == calls + front;
      CallsKeepInvariants(calls + front);
      LiveRowStays(ServeAll(EMPTY, calls + front), more[|more| - 1], x);
    }
  }
}

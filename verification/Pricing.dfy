/** The pricing service: the price table, its saga locks and its outbox. */
module Pricing {
  import opened Common

  datatype Currency = USD | EUR | TRY

  datatype PriceIn = PriceIn(name: string, value: int, unit: string, currency: Currency)

  datatype Price = Price(name: string, value: int, unit: string, currency: Currency,
                         locked: bool, lockedBy: Option<Id>)

  datatype Event =
    | Created(id: Id, price: Price)
    | Updated(id: Id, price: Price)
    | Deleted(id: Id)
    | Locked(id: Id, saga: Id)
    | Unlocked(id: Id, saga: Id)

  datatype Reply = Ok | NotFound | Conflict | IsLocked

  datatype Call =
    | Create(id: Id, input: PriceIn)
    | Update(id: Id, input: PriceIn)
    | Delete(id: Id)
    | Lock(id: Id, saga: Id)
    | Unlock(id: Id)

  type Table = map<Id, Price>

  datatype Db = Db(table: Table, outbox: seq<Event>)

  const EMPTY := Db(map[], [])

  predicate NameTaken(t: Table, name: string) {
    exists x :: x in t && t[x].name == name
  }

  function Priced(input: PriceIn, locked: bool, lockedBy: Option<Id>): Price {
    Price(input.name, input.value, input.unit, input.currency, locked, lockedBy)
  }

  /** What a customer sees of a price: everything but its lock. */
  function Content(p: Price): PriceIn {
    PriceIn(p.name, p.value, p.unit, p.currency)
  }

  function WithLock(p: Price, saga: Id): Price { p.(locked := true, lockedBy := Some(saga)) }

  function WithoutLock(p: Price): Price { p.(locked := false, lockedBy := None) }

  /** One service call as one transaction. A new row whose key exists breaks the primary key. */
  function Serve(db: Db, call: Call): (Db, Reply) {
    match call
    case Create(x, input) =>
      if x in db.table || NameTaken(db.table, input.name) then (db, Conflict)
      else Store(db, x, Priced(input, false, None), Created(x, Priced(input, false, None)))
    case Update(x, input) =>
      if x !in db.table then (db, NotFound)
      else if db.table[x].locked then (db, IsLocked)
      else if input.name != db.table[x].name && NameTaken(db.table, input.name) then (db, Conflict)
      else
        var p := Priced(input, db.table[x].locked, db.table[x].lockedBy);
        Store(db, x, p, Updated(x, p))
    case Delete(x) =>
      if x !in db.table then (db, NotFound)
      else if db.table[x].locked then (db, IsLocked)
      else (Db(db.table - {x}, db.outbox + [Deleted(x)]), Ok)
    case Lock(x, saga) =>
      if x !in db.table then (db, NotFound)
      else if db.table[x].locked && db.table[x].lockedBy == Some(saga) then (db, Ok)
      else if db.table[x].locked then (db, IsLocked)
      else Store(db, x, WithLock(db.table[x], saga), Locked(x, saga))
    case Unlock(x) =>
      if x !in db.table then (db, NotFound)
      else if !db.table[x].locked then (db, Ok)
      else Store(db, x, WithoutLock(db.table[x]), Unlocked(x, Holder(db.table[x])))
  }

  function Store(db: Db, x: Id, p: Price, e: Event): (Db, Reply) {
    (Db(db.table[x := p], db.outbox + [e]), Ok)
  }

  function Holder(p: Price): Id {
    if p.lockedBy.Some? then p.lockedBy.value else 0
  }

  function ServeAll(db: Db, calls: seq<Call>): Db {
    if calls == [] then db
    else Serve(ServeAll(db, calls[..|calls| - 1]), calls[|calls| - 1]).0
  }

  // ---- what each call promises ------------------------------------------------------------

  ghost predicate NameFree(t: Table, name: string) {
    forall y :: y in t ==> t[y].name != name
  }

  /** Nothing but row x differs, and one event is told. */
  ghost predicate TellsOf(db: Db, db': Db, x: Id, e: Event) {
    && db'.outbox == db.outbox + [e]
    && (forall y :: y != x ==> (y in db'.table <==> y in db.table))
    && (forall y :: y != x && y in db.table ==> db'.table[y] == db.table[y])
  }

  /** A new price has the content it was given and is unlocked. */
  ghost predicate Creates(db: Db, x: Id, input: PriceIn, db': Db, r: Reply) {
    && r == (if x !in db.table && NameFree(db.table, input.name) then Ok else Conflict)
    && if r == Ok then
         && x in db'.table && TellsOf(db, db', x, Created(x, db'.table[x]))
         && db'.table[x] == Price(input.name, input.value, input.unit, input.currency, false, None)
       else db' == db
  }

  /** An update is accepted exactly for an unlocked price whose name is kept or free. It then has the content it
      was given, and the lock fields it had. */
  ghost predicate Updates(db: Db, x: Id, input: PriceIn, db': Db, r: Reply) {
    && (r == NotFound <==> x !in db.table)
    && (r == IsLocked <==> x in db.table && db.table[x].locked)
    && (r == Conflict <==> x in db.table && !db.table[x].locked
                           && input.name != db.table[x].name && !NameFree(db.table, input.name))
    && if r == Ok then
         && x in db'.table && TellsOf(db, db', x, Updated(x, db'.table[x]))
         && db'.table[x] == Price(input.name, input.value, input.unit, input.currency,
                                  db.table[x].locked, db.table[x].lockedBy)
       else db' == db
  }

  ghost predicate Deletes(db: Db, x: Id, db': Db, r: Reply) {
    && (r == NotFound <==> x !in db.table)
    && (r == IsLocked <==> x in db.table && db.table[x].locked)
    && r != Conflict
    && if r == Ok then x !in db'.table && TellsOf(db, db', x, Deleted(x)) else db' == db
  }

  /** A lock call leaves the price locked by the saga unless another one has it; it keeps the content, and tells
      of the price only if it was free. */
  ghost predicate Locks(db: Db, x: Id, saga: Id, db': Db, r: Reply) {
    && (r == NotFound <==> x !in db.table)
    && (r == IsLocked <==> x in db.table && db.table[x].locked && db.table[x].lockedBy != Some(saga))
    && r != Conflict
    && if r == Ok && !db.table[x].locked then
         && x in db'.table && TellsOf(db, db', x, Locked(x, saga))
         && db'.table[x] == db.table[x].(locked := true, lockedBy := Some(saga))
       else db' == db
  }

  /** An unlock call leaves the price unlocked, whoever had it, and tells who that was. */
  ghost predicate Unlocks(db: Db, x: Id, db': Db, r: Reply) {
    && r == (if x in db.table then Ok else NotFound)
    && if r == Ok && db.table[x].locked then
         && x in db'.table && db'.table[x] == db.table[x].(locked := false, lockedBy := None)
         && TellsOf(db, db', x, Unlocked(x, if db.table[x].lockedBy.Some? then db.table[x].lockedBy.value else 0))
       else db' == db
  }

  lemma ServeKeepsPromises(db: Db, call: Call)
    ensures var (db', r) := Serve(db, call);
            match call
            case Create(x, input) => Creates(db, x, input, db', r)
            case Update(x, input) => Updates(db, x, input, db', r)
            case Delete(x) => Deletes(db, x, db', r)
            case Lock(x, saga) => Locks(db, x, saga, db', r)
            case Unlock(x) => Unlocks(db, x, db', r)
  {
  }

  // ---- the invariant of the table -------------------------------------------------------

  /** Names are unique, and the lock flag and the lock owner agree. */
  ghost predicate Sound(t: Table) {
    && (forall x, y :: x in t && y in t && t[x].name == t[y].name ==> x == y)
    && (forall x :: x in t ==> (t[x].locked <==> t[x].lockedBy.Some?))
  }

  lemma ServeKeepsSound(db: Db, call: Call)
    requires Sound(db.table)
    ensures Sound(Serve(db, call).0.table)
  {
  }

  // ---- replaying the outbox -------------------------------------------------------------

  /** A reader that knows nothing but the events. */
  function Apply(t: Table, e: Event): Table {
    match e
    case Created(x, p) => t[x := p]
    case Updated(x, p) => t[x := p]
    case Deleted(x) => t - {x}
    case Locked(x, saga) => if x in t then t[x := WithLock(t[x], saga)] else t
    case Unlocked(x, _) => if x in t then t[x := WithoutLock(t[x])] else t
  }

  function Replay(es: seq<Event>): Table {
    if es == [] then map[] else Apply(Replay(es[..|es| - 1]), es[|es| - 1])
  }

  /** Every call's effect on the table is the effect of the events it emits. */
  lemma ServeIsItsEvents(db: Db, call: Call)
    ensures var db' := Serve(db, call).0;
            db' == db || (exists e :: db' == Db(Apply(db.table, e), db.outbox + [e]))
  {
  }

  /** Replaying the outbox rebuilds the price table, locks included, after any calls. */
  lemma {:induction false} ReplayRebuildsTable(calls: seq<Call>)
    ensures Replay(ServeAll(EMPTY, calls).outbox) == ServeAll(EMPTY, calls).table
  {
    if calls != [] {
      var front := calls[..|calls| - 1];
      var before, after := ServeAll(EMPTY, front), ServeAll(EMPTY, calls);
      ReplayRebuildsTable(front);
      ServeIsItsEvents(before, calls[|calls| - 1]);
      if after != before {
        var e :| after == Db(Apply(before.table, e), before.outbox + [e]);
        assert after.outbox[..|after.outbox| - 1] == before.outbox;
      }
    }
  }

  // ---- lock and unlock events alternate --------------------------------------------------

  /** Who holds price x, judged by the lock events alone. */
  function HolderAfter(es: seq<Event>, x: Id): Option<Id> {
    if es == [] then None
    else
      var e := es[|es| - 1];
      if e.Locked? && e.id == x then Some(e.saga)
      else if e.Unlocked? && e.id == x then None
      else HolderAfter(es[..|es| - 1], x)
  }

  ghost predicate IsLockEvent(e: Event, x: Id) { (e.Locked? || e.Unlocked?) && e.id == x }

  /** Every lock event is emitted only when its predecessors allow it. */
  ghost predicate Disciplined(es: seq<Event>) {
    forall i :: 0 <= i < |es| ==>
      && (es[i].Locked? ==> HolderAfter(es[..i], es[i].id) == None)
      && (es[i].Unlocked? ==> HolderAfter(es[..i], es[i].id) == Some(es[i].saga))
  }

  ghost function OwnerIn(t: Table, x: Id): Option<Id> {
    if x in t then t[x].lockedBy else None
  }

  /** The events so far are disciplined, and tell who holds each price. */
  ghost predicate WellTold(db: Db) {
    Sound(db.table) && Disciplined(db.outbox) && forall x :: HolderAfter(db.outbox, x) == OwnerIn(db.table, x)
  }

  lemma OneMoreEvent(db: Db, db': Db, e: Event)
    requires WellTold(db) && db'.outbox == db.outbox + [e] && Sound(db'.table)
    requires e.Locked? ==> OwnerIn(db.table, e.id) == None
    requires e.Unlocked? ==> OwnerIn(db.table, e.id) == Some(e.saga)
    requires forall x :: OwnerIn(db'.table, x) == if IsLockEvent(e, x) then (if e.Locked? then Some(e.saga) else None)
                                                  else OwnerIn(db.table, x)
    ensures WellTold(db')
  {
    assert db'.outbox[..|db.outbox|] == db.outbox;
    forall i | 0 <= i < |db.outbox| ensures db'.outbox[..i] == db.outbox[..i] && db'.outbox[i] == db.outbox[i] {}
  }

  lemma ServeKeepsWellTold(db: Db, call: Call)
    requires WellTold(db)
    ensures WellTold(Serve(db, call).0)
  {
    var db' := Serve(db, call).0;
    ServeKeepsSound(db, call);
    if db' != db { OneMoreEvent(db, db', db'.outbox[|db.outbox|]); }
  }

  lemma {:induction false} CallsKeepDiscipline(calls: seq<Call>)
    ensures WellTold(ServeAll(EMPTY, calls))
  {
    if calls != [] {
      CallsKeepDiscipline(calls[..|calls| - 1]);
      ServeKeepsWellTold(ServeAll(EMPTY, calls[..|calls| - 1]), calls[|calls| - 1]);
    }
  }

  lemma {:induction false} LastLockEventDecides(es: seq<Event>, i: nat, x: Id)
    requires i < |es| && IsLockEvent(es[i], x)
    requires forall k :: i < k < |es| ==> !IsLockEvent(es[k], x)
    ensures HolderAfter(es, x) == if es[i].Locked? then Some(es[i].saga) else None
  {
    if i < |es| - 1 { LastLockEventDecides(es[..|es| - 1], i, x); }
  }

  lemma {:induction false} NoLockEventNoHolder(es: seq<Event>, x: Id)
    requires forall k :: 0 <= k < |es| ==> !IsLockEvent(es[k], x)
    ensures HolderAfter(es, x) == None
  {
    if es != [] { NoLockEventNoHolder(es[..|es| - 1], x); }
  }

  /** After any calls: two neighbouring lock events of one price are a Locked and an Unlocked in
      turn, an Unlocked names the saga of the Locked before it, and the first is a Locked. */
  lemma LockEventsAlternate(calls: seq<Call>, x: Id, i: nat, j: nat)
    requires var es := ServeAll(EMPTY, calls).outbox;
             i <= j < |es| && IsLockEvent(es[j], x)
             && (i < j ==> IsLockEvent(es[i], x))
             && (forall k :: (if i < j then i + 1 else 0) <= k < j ==> !IsLockEvent(es[k], x))
    ensures var es := ServeAll(EMPTY, calls).outbox;
            if i == j then es[j].Locked?
            else es[i].Locked? != es[j].Locked? && (es[i].Locked? ==> es[j].saga == es[i].saga)
  {
    var es := ServeAll(EMPTY, calls).outbox;
    CallsKeepDiscipline(calls);
    if i < j {
      LastLockEventDecides(es[..j], i, x);
    } else {
      NoLockEventNoHolder(es[..j], x);
    }
  }

  // ---- the service object ---------------------------------------------------------------

  class PricingService {
    var table: Table
    var outbox: seq<Event>

    ghost function Value(): Db reads this { Db(table, outbox) }

    constructor ()
      ensures Value() == EMPTY
    {
      table := map[];
      outbox := [];
    }

    method CreatePrice(x: Id, input: PriceIn) returns (r: Reply)
      modifies this
      ensures (Value(), r) == Serve(old(Value()), Create(x, input))
      ensures Creates(old(Value()), x, input, Value(), r)
    {
      if x in table || NameTaken(table, input.name) { return Conflict; }
      table := table[x := Priced(input, false, None)];
      outbox := outbox + [Created(x, table[x])];
      r := Ok;
    }

    method UpdatePrice(x: Id, input: PriceIn) returns (r: Reply)
      modifies this
      ensures (Value(), r) == Serve(old(Value()), Update(x, input))
      ensures Updates(old(Value()), x, input, Value(), r)
    {
      if x !in table { return NotFound; }
      if table[x].locked { return IsLocked; }
      if input.name != table[x].name && NameTaken(table, input.name) { return Conflict; }
      table := table[x := Priced(input, table[x].locked, table[x].lockedBy)];
      outbox := outbox + [Updated(x, table[x])];
      r := Ok;
    }

    method DeletePrice(x: Id) returns (r: Reply)
      modifies this
      ensures (Value(), r) == Serve(old(Value()), Delete(x))
      ensures Deletes(old(Value()), x, Value(), r)
    {
      if x !in table { return NotFound; }
      if table[x].locked { return IsLocked; }
      table := table - {x};
      outbox := outbox + [Deleted(x)];
      r := Ok;
    }

    method LockPrice(x: Id, saga: Id) returns (r: Reply)
      modifies this
      ensures (Value(), r) == Serve(old(Value()), Lock(x, saga))
      ensures Locks(old(Value()), x, saga, Value(), r)
    {
      if x !in table { return NotFound; }
      if table[x].locked && table[x].lockedBy == Some(saga) { return Ok; }
      if table[x].locked { return IsLocked; }
      table := table[x := WithLock(table[x], saga)];
      outbox := outbox + [Locked(x, saga)];
      r := Ok;
    }

    method UnlockPrice(x: Id) returns (r: Reply)
      modifies this
      ensures (Value(), r) == Serve(old(Value()), Unlock(x))
      ensures Unlocks(old(Value()), x, Value(), r)
    {
      if x !in table { return NotFound; }
      if !table[x].locked { return Ok; }
      var holder := Holder(table[x]);
      table := table[x := WithoutLock(table[x])];
      outbox := outbox + [Unlocked(x, holder)];
      r := Ok;
    }
  }
}

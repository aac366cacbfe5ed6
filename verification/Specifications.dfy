/** The specification service: specifications, checked against the local characteristic cache. */
module Specifications {
  import opened Common

  datatype Specification = Specification(name: string, charIds: seq<Id>)

  datatype Event =
    | Created(id: Id, specification: Specification)
    | Updated(id: Id, specification: Specification)
    | Deleted(id: Id)

  datatype Reply = Ok | NotFound | Conflict | Invalid

  datatype Call =
    | Create(id: Id, input: Specification)
    | Update(id: Id, input: Specification)
    | Delete(id: Id)

  type Table = map<Id, Specification>

  /** The local copy of the characteristic names. */
  type Cache = map<Id, string>

  datatype Db = Db(table: Table, outbox: seq<Event>)

  const EMPTY := Db(map[], [])

  predicate NameTaken(t: Table, name: string) {
    exists x :: x in t && t[x].name == name
  }

  ghost predicate CharsKnown(ids: seq<Id>, cache: Cache) {
    ids != [] && forall c :: c in ids ==> c in cache
  }

  ghost function Serve(db: Db, call: Call, cache: Cache): (Db, Reply) {
    match call
    case Create(x, input) =>
      if x in db.table || NameTaken(db.table, input.name) then (db, Conflict)
      else if !CharsKnown(input.charIds, cache) then (db, Invalid)
      else (Db(db.table[x := input], db.outbox + [Created(x, input)]), Ok)
    case Update(x, input) =>
      if x !in db.table then (db, NotFound)
      else if input.name != db.table[x].name && NameTaken(db.table, input.name) then (db, Conflict)
      else if !CharsKnown(input.charIds, cache) then (db, Invalid)
      else (Db(db.table[x := input], db.outbox + [Updated(x, input)]), Ok)
    case Delete(x) =>
      if x !in db.table then (db, NotFound)
      else (Db(db.table - {x}, db.outbox + [Deleted(x)]), Ok)
  }

  // ---- what each call promises ------------------------------------------------------------

  ghost predicate NameFree(t: Table, name: string) {
    forall y :: y in t ==> t[y].name != name
  }

  /** Nothing but row x differs, and one event is told. */
  ghost predicate TellsOf(db: Db, db': Db, x: Id, e: Event) {
    && db'.outbox == db.outbox + [e]
    && (forall y :: y != x ==> (y in db'.table <==> y in db.table))
    && (forall y :: y != x && y in db.table ==> db'.table[y] == db.table[y])
  }

  /** Some characteristic is named, and none the cache does not know. */
  ghost predicate CacheAllows(input: Specification, cache: Cache) {
    |input.charIds| > 0 && forall i :: 0 <= i < |input.charIds| ==> input.charIds[i] in cache
  }

  ghost predicate Creates(db: Db, x: Id, input: Specification, cache: Cache, db': Db, r: Reply) {
    && (r == Conflict <==> x in db.table || !NameFree(db.table, input.name))
    && (r == Invalid <==> x !in db.table && NameFree(db.table, input.name) && !CacheAllows(input, cache))
    && r != NotFound
    && if r == Ok then x in db'.table && db'.table[x] == input && TellsOf(db, db', x, Created(x, input)) else db' == db
  }

  ghost predicate Updates(db: Db, x: Id, input: Specification, cache: Cache, db': Db, r: Reply) {
    && (r == NotFound <==> x !in db.table)
    && (r == Conflict <==> x in db.table && input.name != db.table[x].name && !NameFree(db.table, input.name))
    && (r == Invalid <==> x in db.table && (input.name == db.table[x].name || NameFree(db.table, input.name))
                          && !CacheAllows(input, cache))
    && if r == Ok then x in db'.table && db'.table[x] == input && TellsOf(db, db', x, Updated(x, input)) else db' == db
  }

  ghost predicate Deletes(db: Db, x: Id, db': Db, r: Reply) {
    && r == (if x in db.table then Ok else NotFound)
    && if r == Ok then x !in db'.table && TellsOf(db, db', x, Deleted(x)) else db' == db
  }

  lemma ServeKeepsPromises(db: Db, call: Call, cache: Cache)
    ensures var (db', r) := Serve(db, call, cache);
            match call
            case Create(x, input) => Creates(db, x, input, cache, db', r)
            case Update(x, input) => Updates(db, x, input, cache, db', r)
            case Delete(x) => Deletes(db, x, db', r)
  {
    if !call.Delete? { KnownIsAllowed(call.input, cache); }
  }

  lemma KnownIsAllowed(input: Specification, cache: Cache)
    ensures CharsKnown(input.charIds, cache) <==> CacheAllows(input, cache)
  {
    if CacheAllows(input, cache) {
      forall c | c in input.charIds ensures c in cache {
        var i :| 0 <= i < |input.charIds| && input.charIds[i] == c;
      }
    }
  }

  /** Every id is found: what the saga's validation task asks. */
  ghost predicate AllFound(t: Table, ids: seq<Id>) {
    forall s :: s in ids ==> s in t
  }

  class SpecificationService {
    var table: Table
    var outbox: seq<Event>
    var cache: Cache

    ghost function Value(): Db reads this { Db(table, outbox) }

    constructor ()
      ensures Value() == EMPTY && cache == map[]
    {
      table, outbox, cache := map[], [], map[];
    }

    /** Collects the ids missing from the cache, as the error message lists them. */
    method ValidateCharacteristics(ids: seq<Id>) returns (ok: bool, missing: seq<Id>)
      ensures ok <==> CharsKnown(ids, cache)
      ensures ok <==> ids != [] && forall c :: c in ids ==> c in cache
      ensures forall c :: c in missing <==> c in ids && c !in cache
    {
      missing := [];
      for i := 0 to |ids|
        invariant forall c :: c in missing <==> c in ids[..i] && c !in cache
      {
        if ids[i] !in cache { missing := missing + [ids[i]]; }
      }
      ok := ids != [] && missing == [];
      assert missing != [] ==> missing[0] in missing;
    }

    method CreateSpecification(x: Id, input: Specification) returns (r: Reply)
      modifies this
      ensures (Value(), r) == Serve(old(Value()), Create(x, input), old(cache)) && cache == old(cache)
      ensures Creates(old(Value()), x, input, cache, Value(), r)
    {
      KnownIsAllowed(input, cache);
      if x in table || NameTaken(table, input.name) { return Conflict; }
      var ok, _ := ValidateCharacteristics(input.charIds);
      if !ok { return Invalid; }
      table := table[x := input];
      outbox := outbox + [Created(x, input)];
      r := Ok;
    }

    method UpdateSpecification(x: Id, input: Specification) returns (r: Reply)
      modifies this
      ensures (Value(), r) == Serve(old(Value()), Update(x, input), old(cache)) && cache == old(cache)
      ensures Updates(old(Value()), x, input, cache, Value(), r)
    {
      KnownIsAllowed(input, cache);
      if x !in table { return NotFound; }
      if input.name != table[x].name && NameTaken(table, input.name) { return Conflict; }
      var ok, _ := ValidateCharacteristics(input.charIds);
      if !ok { return Invalid; }
      table := table[x := input];
      outbox := outbox + [Updated(x, input)];
      r := Ok;
    }

    method DeleteSpecification(x: Id) returns (r: Reply)
      modifies this
      ensures (Value(), r) == Serve(old(Value()), Delete(x), old(cache)) && cache == old(cache)
      ensures Deletes(old(Value()), x, Value(), r)
    {
      if x !in table { return NotFound; }
      table := table - {x};
      outbox := outbox + [Deleted(x)];
      r := Ok;
    }

    method ValidateSpecifications(ids: seq<Id>) returns (ok: bool)
      ensures ok <==> AllFound(table, ids)
      ensures ok <==> forall s :: s in ids ==> s in table
    {
      for i := 0 to |ids|
        invariant AllFound(table, ids[..i])
      {
        if ids[i] !in table { return false; }
      }
      ok := true;
    }
  }
}

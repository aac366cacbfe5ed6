/** The characteristic service, source of the characteristic events. */
module Characteristics {
  import opened Common

  datatype Characteristic = Characteristic(name: string, value: string, unit: string)

  /** An update leaves out what it does not change; an empty name counts as left out. */
  datatype Patch = Patch(name: Option<string>, value: Option<string>, unit: Option<string>)

  datatype Event =
    | Created(id: Id, characteristic: Characteristic)
    | Updated(id: Id, characteristic: Characteristic)
    | Deleted(id: Id)

  datatype Reply = Ok | NotFound | Conflict

  datatype Call =
    | Create(id: Id, input: Characteristic)
    | Update(id: Id, patch: Patch)
    | Delete(id: Id)

  type Table = map<Id, Characteristic>

  datatype Db = Db(table: Table, outbox: seq<Event>)

  const EMPTY := Db(map[], [])

  predicate NameTaken(t: Table, name: string) {
    exists x :: x in t && t[x].name == name
  }

  predicate Renames(c: Characteristic, patch: Patch) {
    patch.name.Some? && patch.name.value != "" && patch.name.value != c.name
  }

  function Patched(c: Characteristic, patch: Patch): Characteristic {
    Characteristic(if Renames(c, patch) then patch.name.value else c.name,
                   if patch.value.Some? then patch.value.value else c.value,
                   if patch.unit.Some? then patch.unit.value else c.unit)
  }

  function Serve(db: Db, call: Call): (Db, Reply) {
    match call
    case Create(x, input) =>
      if x in db.table || NameTaken(db.table, input.name) then (db, Conflict)
      else (Db(db.table[x := input], db.outbox + [Created(x, input)]), Ok)
    case Update(x, patch) =>
      if x !in db.table then (db, NotFound)
      else if Renames(db.table[x], patch) && NameTaken(db.table, patch.name.value) then (db, Conflict)
      else
        var c := Patched(db.table[x], patch);
        (Db(db.table[x := c], db.outbox + [Updated(x, c)]), Ok)
    case Delete(x) =>
      if x !in db.table then (db, NotFound)
      else (Db(db.table - {x}, db.outbox + [Deleted(x)]), Ok)
  }

  function ServeAll(db: Db, calls: seq<Call>): Db {
    if calls == [] then db
    else Serve(ServeAll(db, calls[..|calls| - 1]), calls[|calls| - 1]).0
  }

  // ---- what each call promises ------------------------------------------------------------

  ghost predicate NameFree(t: Table, name: string) {
    forall y :: y in t ==> t[y].name != name
  }

  /** Nothing but row x differs, and one event is told. */
  ghost predicate TellsOf(db: Db, db': Db, x: Id, e: Event) {
    && db'.outbox == db.outbox + [e]
    && (forall y :: y != x ==> (y in db'.table <==> y in db.table))
    && (forall y :: y != x && y in db.table ==> db'.table[y] == db.table[y])
  }

  ghost predicate Creates(db: Db, x: Id, input: Characteristic, db': Db, r: Reply) {
    && r == (if x !in db.table && NameFree(db.table, input.name) then Ok else Conflict)
    && if r == Ok then x in db'.table && db'.table[x] == input && TellsOf(db, db', x, Created(x, input)) else db' == db
  }

  /** Each field given replaces that of the row, the others stay; an empty name is none. */
  ghost predicate Updates(db: Db, x: Id, patch: Patch, db': Db, r: Reply) {
    && (r == NotFound <==> x !in db.table)
    && (r == Conflict <==> x in db.table && patch.name.Some? && patch.name.value != ""
                           && patch.name.value != db.table[x].name && !NameFree(db.table, patch.name.value))
    && if r == Ok then
         && x in db'.table && TellsOf(db, db', x, Updated(x, db'.table[x]))
         && var c, c' := db.table[x], db'.table[x];
            && c'.name == (if patch.name.Some? && patch.name.value != "" then patch.name.value else c.name)
            && c'.value == (if patch.value.Some? then patch.value.value else c.value)
            && c'.unit == (if patch.unit.Some? then patch.unit.value else c.unit)
       else db' == db
  }

  ghost predicate Deletes(db: Db, x: Id, db': Db, r: Reply) {
    && r == (if x in db.table then Ok else NotFound)
    && if r == Ok then x !in db'.table && TellsOf(db, db', x, Deleted(x)) else db' == db
  }

  lemma ServeKeepsPromises(db: Db, call: Call)
    ensures var (db', r) := Serve(db, call);
            match call
            case Create(x, input) => Creates(db, x, input, db', r)
            case Update(x, patch) => Updates(db, x, patch, db', r)
            case Delete(x) => Deletes(db, x, db', r)
  {
  }

  class CharacteristicService {
    var table: Table
    var outbox: seq<Event>

    ghost function Value(): Db reads this { Db(table, outbox) }

    constructor ()
      ensures Value() == EMPTY
    {
      table, outbox := map[], [];
    }

    method CreateCharacteristic(x: Id, input: Characteristic) returns (r: Reply)
      modifies this
      ensures (Value(), r) == Serve(old(Value()), Create(x, input))
      ensures Creates(old(Value()), x, input, Value(), r)
    {
      if x in table || NameTaken(table, input.name) { return Conflict; }
      table := table[x := input];
      outbox := outbox + [Created(x, input)];
      r := Ok;
    }

    method UpdateCharacteristic(x: Id, patch: Patch) returns (r: Reply)
      modifies this
      ensures (Value(), r) == Serve(old(Value()), Update(x, patch))
      ensures Updates(old(Value()), x, patch, Value(), r)
    {
      if x !in table { return NotFound; }
      var c := table[x];
      if Renames(c, patch) {
        if NameTaken(table, patch.name.value) { return Conflict; }
        c := c.(name := patch.name.value);
      }
      if patch.value.Some? { c := c.(value := patch.value.value); }
      if patch.unit.Some? { c := c.(unit := patch.unit.value); }
      table := table[x := c];
      outbox := outbox + [Updated(x, c)];
      r := Ok;
    }

    method DeleteCharacteristic(x: Id) returns (r: Reply)
      modifies this
      ensures (Value(), r) == Serve(old(Value()), Delete(x))
      ensures Deletes(old(Value()), x, Value(), r)
    {
      if x !in table { return NotFound; }
      table := table - {x};
      outbox := outbox + [Deleted(x)];
      r := Ok;
    }
  }
}

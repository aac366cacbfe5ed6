/** The specification service's cache of characteristic names, fed by the characteristic outbox. */
module CharCache {
  import opened Common
  import C = Characteristics
  import R = Relay
  import Specifications

  type Cache = Specifications.Cache

  /** The names in a table. */
  function Names(t: C.Table): Cache { map x | x in t :: t[x].name }

  function Apply(cache: Cache, e: C.Event): Cache {
    match e
    case Created(x, c) => cache[x := c.name]
    case Updated(x, c) => cache[x := c.name]
    case Deleted(x) => cache - {x}
  }

  function ApplyAll(cache: Cache, es: seq<C.Event>): Cache {
    if es == [] then cache else Apply(ApplyAll(cache, es[..|es| - 1]), es[|es| - 1])
  }

  /** A message as it arrives: an event type, possibly unknown, and a payload whose id may be missing. */
  datatype MessageType = CharacteristicCreated | CharacteristicUpdated | CharacteristicDeleted | Unknown

  datatype Message = Message(eventType: MessageType, id: Option<Id>, name: string)

  function MessageOf(e: C.Event): Message {
    match e
    case Created(x, c) => Message(CharacteristicCreated, Some(x), c.name)
    case Updated(x, c) => Message(CharacteristicUpdated, Some(x), c.name)
    case Deleted(x) => Message(CharacteristicDeleted, Some(x), "")
  }

  /** The cache after a message; a write that fails is rolled back and logged. */
  function Receive(rows: Cache, m: Message, commits: bool): Cache {
    if m.id == None || m.eventType == Unknown || !commits then rows
    else if m.eventType == CharacteristicDeleted then rows - {m.id.value}
    else rows[m.id.value := m.name]
  }

  /** An event that arrives and commits has its effect, one that does not commit has none. */
  lemma ReceivedEventIsApplied(rows: Cache, e: C.Event, commits: bool)
    ensures Receive(rows, MessageOf(e), commits) == if commits then Apply(rows, e) else rows
  {
  }

  /** The consumer object: an upsert or a delete per message. */
  class CharacteristicConsumer {
    var rows: Cache

    method ProcessEvent(m: Message, commits: bool)
      modifies this
      ensures rows == Receive(old(rows), m, commits)
      ensures m.id == None || m.eventType == Unknown || !commits ==> rows == old(rows)
      ensures m.id.Some? && m.eventType != Unknown && commits ==>
                && (forall x :: x != m.id.value ==> (x in rows <==> x in old(rows)))
                && (forall x :: x != m.id.value && x in old(rows) ==> rows[x] == old(rows)[x])
                && (m.id.value in rows <==> m.eventType != CharacteristicDeleted)
                && (m.id.value in rows ==> rows[m.id.value] == m.name)
    {
      if m.id == None { return; }
      var x, before := m.id.value, rows;
      if m.eventType == CharacteristicCreated || m.eventType == CharacteristicUpdated {
        if x in rows { rows := rows[x := m.name]; } else { rows := rows + map[x := m.name]; }
      } else if m.eventType == CharacteristicDeleted {
        if x in rows { rows := rows - {x}; }
      } else {
        return;
      }
      if !commits { rows := before; }
    }
  }

  // ---- the events mirror the table -----------------------------------------------------------

  lemma OneCallOneEvent(db: C.Db, call: C.Call)
    ensures var (db', r) := C.Serve(db, call);
            if r != C.Ok then db' == db
            else |db'.outbox| == |db.outbox| + 1 && db'.outbox[..|db.outbox|] == db.outbox
                 && Names(db'.table) == Apply(Names(db.table), db'.outbox[|db.outbox|])
  {
  }

  /** The first k events give the names of the table as it was after some prefix of the calls. */
  lemma {:induction false} PrefixIsPastTable(calls: seq<C.Call>, k: nat) returns (n: nat)
    requires k <= |C.ServeAll(C.EMPTY, calls).outbox|
    ensures n <= |calls|
    ensures ApplyAll(map[], C.ServeAll(C.EMPTY, calls).outbox[..k]) == Names(C.ServeAll(C.EMPTY, calls[..n]).table)
    ensures k == |C.ServeAll(C.EMPTY, calls).outbox| ==>
              Names(C.ServeAll(C.EMPTY, calls[..n]).table) == Names(C.ServeAll(C.EMPTY, calls).table)
  {
    var db := C.ServeAll(C.EMPTY, calls);
    if calls == [] {
      n := 0;
    } else {
      var front := calls[..|calls| - 1];
      var before := C.ServeAll(C.EMPTY, front);
      OneCallOneEvent(before, calls[|calls| - 1]);
      if k <= |before.outbox| {
        n := PrefixIsPastTable(front, k);
        assert front[..n] == calls[..n];
        assert db.outbox[..k] == before.outbox[..k];
      } else {
        n := PrefixIsPastTable(front, |before.outbox|);
        assert before.outbox[..|before.outbox|] == before.outbox;
        n := |calls|;
        LastEventIsApplied(before, calls[|calls| - 1]);
        assert calls[..n] == calls && db.outbox[..k] == db.outbox;
      }
    }
  }

  lemma LastEventIsApplied(db: C.Db, call: C.Call)
    requires ApplyAll(map[], db.outbox) == Names(db.table)
    ensures var db' := C.Serve(db, call).0; ApplyAll(map[], db'.outbox) == Names(db'.table)
  {
    var (db', r) := C.Serve(db, call);
    OneCallOneEvent(db, call);
    if r == C.Ok { assert db'.outbox[..|db'.outbox| - 1] == db.outbox; }
  }

  // ---- the cache behind the relay ------------------------------------------------------------

  /** The events behind a broker log of row numbers. */
  function Delivered(es: seq<C.Event>, log: seq<nat>): seq<C.Event>
    requires forall k :: k in log ==> k < |es|
  {
    seq(|log|, i requires 0 <= i < |log| => assert log[i] in log; es[log[i]])
  }

  lemma ApplyTwice(cache: Cache, e: C.Event)
    ensures Apply(Apply(cache, e), e) == Apply(cache, e)
  {
  }

  /** A log that stutters has the effect of each of its events once. */
  lemma {:induction false} StutterIsPrefix(es: seq<C.Event>, log: seq<nat>)
    requires R.Stutters(log) && forall k :: k in log ==> k < |es|
    ensures var m := if log == [] then 0 else log[|log| - 1] + 1;
            m <= |es| && ApplyAll(map[], Delivered(es, log)) == ApplyAll(map[], es[..m])
  {
    if log != [] {
      var front, last := log[..|log| - 1], log[|log| - 1];
      forall k | k in front ensures k < |es| { assert k in log; }
      StutterIsPrefix(es, front);
      DeliveredNext(es, log);
      if front != [] && front[|front| - 1] == last {
        RepeatedEventIsIdle(es, last);
      } else {
        assert es[..last + 1][..last] == es[..last];
      }
    }
  }

  lemma DeliveredNext(es: seq<C.Event>, log: seq<nat>)
    requires log != [] && forall k :: k in log ==> k < |es|
    ensures var front, last := log[..|log| - 1], log[|log| - 1];
            && last < |es| && (forall k :: k in front ==> k < |es|)
            && ApplyAll(map[], Delivered(es, log)) == Apply(ApplyAll(map[], Delivered(es, front)), es[last])
  {
    var front, last := log[..|log| - 1], log[|log| - 1];
    assert last in log;
    forall k | k in front ensures k < |es| { assert k in log; }
    assert Delivered(es, log)[..|log| - 1] == Delivered(es, front);
  }

  lemma RepeatedEventIsIdle(es: seq<C.Event>, last: nat)
    requires last < |es|
    ensures Apply(ApplyAll(map[], es[..last + 1]), es[last]) == ApplyAll(map[], es[..last + 1])
  {
    assert es[..last + 1][..last] == es[..last];
    ApplyTwice(ApplyAll(map[], es[..last]), es[last]);
  }

  /** With one relay pass at a time and no rejected publish, and with passes crashing between
      publishing and committing at will: whatever part of the broker log the consumer has read, the
      cache equals the name map of the characteristic table after some prefix of its calls; and the
      current one once every row is sent and read. */
  lemma CacheIsPastSnapshot(calls: seq<C.Call>, cfg: R.Config, acts: seq<R.Action>, read: nat) returns (n: nat)
    requires !cfg.rejections && !cfg.overlap
    requires var es, s := C.ServeAll(C.EMPTY, calls).outbox, R.Run(cfg, acts);
             |s.rows| <= |es| && read <= |s.log|
    ensures var es, s := C.ServeAll(C.EMPTY, calls).outbox, R.Run(cfg, acts);
            && n <= |calls|
            && (forall k :: k in s.log[..read] ==> k < |es|)
            && ApplyAll(map[], Delivered(es, s.log[..read])) == Names(C.ServeAll(C.EMPTY, calls[..n]).table)
            && (read == |s.log| && |s.rows| == |es| && (forall k :: 0 <= k < |s.rows| ==> s.rows[k] == R.SENT) ==>
                  ApplyAll(map[], Delivered(es, s.log[..read])) == Names(C.ServeAll(C.EMPTY, calls).table))
  {
    var es, s := C.ServeAll(C.EMPTY, calls).outbox, R.Run(cfg, acts);
    R.RunKeepsOrder(cfg, acts);
    var c := R.RunKeepsSingle(cfg, acts);
    var part := s.log[..read];
    forall k | k in part ensures k < |es| { assert k in s.log; }
    StutterIsPrefix(es, part);
    var m := if part == [] then 0 else part[|part| - 1] + 1;
    n := PrefixIsPastTable(calls, m);
    if read == |s.log| && |s.rows| == |es| && forall k :: 0 <= k < |s.rows| ==> s.rows[k] == R.SENT {
      R.AllSentMeansDone(s, c);
      assert part == s.log && m == |es|;
    }
  }

  // ---- when the cache is current -----------------------------------------------------------------

  /** The last event about x in es, if any, decides x alone. */
  function Verdict(es: seq<C.Event>, x: Id): Option<C.Event> {
    if es == [] then None
    else if es[|es| - 1].id == x then Some(es[|es| - 1])
    else Verdict(es[..|es| - 1], x)
  }

  lemma {:induction false} VerdictDecides(cache: Cache, es: seq<C.Event>, x: Id)
    ensures var after, v := ApplyAll(cache, es), Verdict(es, x);
            if v == None then (x in after <==> x in cache) && (x in cache ==> after[x] == cache[x])
            else if v.value.Deleted? then x !in after
            else x in after && after[x] == v.value.characteristic.name
  {
    if es != [] { VerdictDecides(cache, es[..|es| - 1], x); }
  }

  /** After it the characteristic is not in the cache. */
  predicate LeavesNone(v: Option<C.Event>) { v == None || v.value.Deleted? }

  predicate SameEffect(v: Option<C.Event>, v': Option<C.Event>) {
    if LeavesNone(v) || LeavesNone(v') then LeavesNone(v) && LeavesNone(v')
    else v.value.characteristic.name == v'.value.characteristic.name
  }

  lemma SameEffectAt(es: seq<C.Event>, told: seq<C.Event>, x: Id)
    ensures var have, want := ApplyAll(map[], told), ApplyAll(map[], es);
            SameEffect(Verdict(told, x), Verdict(es, x)) <==>
            (x in have <==> x in want) && (x in have && x in want ==> have[x] == want[x])
  {
    VerdictDecides(map[], told, x);
    VerdictDecides(map[], es, x);
  }

  /** For each characteristic the last event about it in one sequence has the effect of the last in the other. */
  ghost predicate SameVerdicts(told: seq<C.Event>, es: seq<C.Event>) {
    forall x: Id :: SameEffect(Verdict(told, x), Verdict(es, x))
  }

  lemma SameCacheIsSameVerdicts(es: seq<C.Event>, told: seq<C.Event>)
    ensures ApplyAll(map[], told) == ApplyAll(map[], es) <==> SameVerdicts(told, es)
  {
    var have, want := ApplyAll(map[], told), ApplyAll(map[], es);
    if have == want {
      forall x: Id ensures SameEffect(Verdict(told, x), Verdict(es, x)) { SameEffectAt(es, told, x); }
      assert SameVerdicts(told, es);
    }
    if SameVerdicts(told, es) {
      forall x: Id ensures (x in have <==> x in want) && (x in have && x in want ==> have[x] == want[x]) {
        assert SameEffect(Verdict(told, x), Verdict(es, x));
        SameEffectAt(es, told, x);
      }
      assert have.Keys == want.Keys;
      assert have == want;
    }
  }

  /** Whatever the relay did, whichever copies the consumer read and in whatever order: the cache equals the
      names of the current table if and only if, for each characteristic, the last copy read that is about it
      has the effect of its last outbox row. */
  lemma CacheIsCurrent(calls: seq<C.Call>, log: seq<nat>)
    requires forall k :: k in log ==> k < |C.ServeAll(C.EMPTY, calls).outbox|
    ensures var db := C.ServeAll(C.EMPTY, calls);
            ApplyAll(map[], Delivered(db.outbox, log)) == Names(db.table) <==>
            SameVerdicts(Delivered(db.outbox, log), db.outbox)
  {
    var db := C.ServeAll(C.EMPTY, calls);
    var n := PrefixIsPastTable(calls, |db.outbox|);
    assert db.outbox[..|db.outbox|] == db.outbox;
    SameCacheIsSameVerdicts(db.outbox, Delivered(db.outbox, log));
  }

  /** Overlapping passes break this: every row is sent and every message read, and the cache holds a
      characteristic that was deleted. */
  lemma OverlapLeavesStaleCache() returns (calls: seq<C.Call>, acts: seq<R.Action>)
    ensures var es, s := C.ServeAll(C.EMPTY, calls).outbox, R.Run(R.Config(false, true), acts);
            && |s.rows| == |es| && (forall k :: 0 <= k < |s.rows| ==> s.rows[k] == R.SENT)
            && (forall k :: k in s.log ==> k < |es|)
            && C.ServeAll(C.EMPTY, calls).table == map[] && 1 in ApplyAll(map[], Delivered(es, s.log))
  {
    var made := C.Create(1, C.Characteristic("colour", "red", "none"));
    calls := [made] + [C.Delete(1)];
    assert calls[..1] == [made] && [made][..0] == [];
    assert C.ServeAll(C.EMPTY, [made]) == C.Serve(C.EMPTY, made).0;
    var es := C.ServeAll(C.EMPTY, calls).outbox;
    acts := R.OverlapRewindsLog();
    var told := Delivered(es, [0, 1, 0]);
    assert told[..2] + [es[0]] == told;
  }

  /** Handling a whole sequence of events a second time, in order, changes nothing. */
  lemma ReplayTwice(cache: Cache, es: seq<C.Event>)
    ensures ApplyAll(ApplyAll(cache, es), es) == ApplyAll(cache, es)
  {
    var once := ApplyAll(cache, es);
    var twice := ApplyAll(once, es);
    forall x ensures x in twice <==> x in once
             ensures x in once ==> twice[x] == once[x]
    {
      VerdictDecides(cache, es, x);
      VerdictDecides(once, es, x);
    }
  }

  /** Only ids that were created ever enter the cache. */
  lemma {:induction false} CachedIdsWereAnnounced(es: seq<C.Event>, x: Id)
    requires x in ApplyAll(map[], es)
    ensures exists k :: 0 <= k < |es| && !es[k].Deleted? && es[k].id == x
  {
    var front := es[..|es| - 1];
    if !es[|es| - 1].Deleted? && es[|es| - 1].id == x {
    } else {
      CachedIdsWereAnnounced(front, x);
      var k :| 0 <= k < |front| && !front[k].Deleted? && front[k].id == x;
      assert es[k] == front[k];
    }
  }
}

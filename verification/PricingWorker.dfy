/** The pricing saga worker: the batch lock with its rollback, and the batch unlock. */
module PricingWorker {
  import opened Common
  import opened Pricing

  // ---- one remote call ------------------------------------------------------------------

  /** POST /lock: the new database, and whether status 200 came back. */
  function LockCall(db: Db, x: Id, saga: Id, net: Net): (Db, bool) {
    var (served, reply) := Serve(db, Lock(x, saga));
    (if net.Ran() then served else db, net == Delivered && reply == Ok)
  }

  /** POST /unlock: the reply is never inspected, so only the new database matters. */
  function UnlockCall(db: Db, x: Id, net: Net): Db {
    if net.Ran() then Serve(db, Unlock(x)).0 else db
  }

  // ---- the handlers ---------------------------------------------------------------------

  /** Locks ids[i..] in order; stops at the first call that does not return 200, with its index. */
  function LockLoop(db: Db, ids: seq<Id>, saga: Id, net: nat -> Net, i: nat): (Db, nat)
    requires i <= |ids|
    decreases |ids| - i
  {
    if i == |ids| then (db, i)
    else
      var (db', ok) := LockCall(db, ids[i], saga, net(i));
      if ok then LockLoop(db', ids, saga, net, i + 1) else (db', i)
  }

  /** Unlocks ids[j..n] in order; an exception ends the loop, an error status does not. */
  function UnlockLoop(db: Db, ids: seq<Id>, net: nat -> Net, j: nat, n: nat): (Db, bool)
    requires j <= n <= |ids|
    decreases n - j
  {
    if j == n then (db, true)
    else if net(j).Raises() then (UnlockCall(db, ids[j], net(j)), false)
    else UnlockLoop(UnlockCall(db, ids[j], net(j)), ids, net, j + 1, n)
  }

  /** The whole lock handler: all locks, or a rollback of the locks already confirmed. */
  function LockHandler(db: Db, ids: seq<Id>, saga: Id, net: nat -> Net, back: nat -> Net): (Db, Outcome) {
    var (locked, k) := LockLoop(db, ids, saga, net, 0);
    LockLoopStops(db, ids, saga, net, 0);
    if k == |ids| then (locked, Completed)
    else
      var (undone, quiet) := UnlockLoop(locked, ids, back, 0, k);
      (undone, if quiet then BpmnError else Raised)
  }

  function UnlockHandler(db: Db, ids: seq<Id>, net: nat -> Net): (Db, Outcome) {
    var (undone, quiet) := UnlockLoop(db, ids, net, 0, |ids|);
    (undone, if quiet then Completed else Raised)
  }

  lemma {:induction false} LockLoopStops(db: Db, ids: seq<Id>, saga: Id, net: nat -> Net, i: nat)
    requires i <= |ids|
    ensures i <= LockLoop(db, ids, saga, net, i).1 <= |ids|
    decreases |ids| - i
  {
    if i < |ids| {
      var (db', ok) := LockCall(db, ids[i], saga, net(i));
      if ok { LockLoopStops(db', ids, saga, net, i + 1); }
    }
  }

  method HandleLockPrices(service: PricingService, ids: seq<Id>, saga: Id, net: nat -> Net, back: nat -> Net)
    returns (outcome: Outcome)
    modifies service
    ensures (service.Value(), outcome) == LockHandler(old(service.Value()), ids, saga, net, back)
  {
    var lockedSuccessfully: seq<Id> := [];
    var i := 0;
    while i < |ids|
      invariant 0 <= i <= |ids|
      invariant lockedSuccessfully == ids[..i]
      invariant LockLoop(old(service.Value()), ids, saga, net, 0) == LockLoop(service.Value(), ids, saga, net, i)
    {
      var status200 := false;
      ghost var before := service.Value();
      if net(i).Ran() {
        var reply := service.LockPrice(ids[i], saga);
        status200 := net(i) == Delivered && reply == Ok;
      }
      assert (service.Value(), status200) == LockCall(before, ids[i], saga, net(i));
      if !status200 {
        outcome := Rollback(service, ids, lockedSuccessfully, back);
        return;
      }
      lockedSuccessfully := lockedSuccessfully + [ids[i]];
      i := i + 1;
    }
    outcome := Completed;
  }

  /** The except branch of the lock handler. */
  method Rollback(service: PricingService, ids: seq<Id>, lockedSuccessfully: seq<Id>, back: nat -> Net)
    returns (outcome: Outcome)
    requires lockedSuccessfully <= ids
    modifies service
    ensures var (undone, quiet) := UnlockLoop(old(service.Value()), ids, back, 0, |lockedSuccessfully|);
            service.Value() == undone && outcome == if quiet then BpmnError else Raised
  {
    var j := 0;
    while j < |lockedSuccessfully|
      invariant 0 <= j <= |lockedSuccessfully|
      invariant UnlockLoop(old(service.Value()), ids, back, 0, |lockedSuccessfully|)
             == UnlockLoop(service.Value(), ids, back, j, |lockedSuccessfully|)
    {
      if back(j).Ran() { var _ := service.UnlockPrice(lockedSuccessfully[j]); }
      if back(j).Raises() { return Raised; }
      j := j + 1;
    }
    outcome := BpmnError;
  }

  method HandleUnlockPrices(service: PricingService, ids: seq<Id>, net: nat -> Net) returns (outcome: Outcome)
    modifies service
    ensures (service.Value(), outcome) == UnlockHandler(old(service.Value()), ids, net)
  {
    var j := 0;
    while j < |ids|
      invariant 0 <= j <= |ids|
      invariant UnlockLoop(old(service.Value()), ids, net, 0, |ids|) == UnlockLoop(service.Value(), ids, net, j, |ids|)
    {
      if net(j).Ran() { var _ := service.UnlockPrice(ids[j]); }
      if net(j).Raises() { return Raised; }
      j := j + 1;
    }
    outcome := Completed;
  }

  // ---- what the handlers do to the lock table ---------------------------------------------

  /** t with every price in xs locked by the saga. */
  ghost function LockAll(t: Table, xs: set<Id>, saga: Id): Table {
    map x | x in t :: if x in xs then WithLock(t[x], saga) else t[x]
  }

  /** t with every price in xs unlocked. */
  ghost function UnlockAll(t: Table, xs: set<Id>): Table {
    map x | x in t :: if x in xs then WithoutLock(t[x]) else t[x]
  }

  /** Price x can be locked by the saga: it exists and nobody else holds it. */
  predicate Lockable(t: Table, x: Id, saga: Id) {
    x in t && (t[x].locked ==> t[x].lockedBy == Some(saga))
  }

  /** The prices taken by calls i up to k: all before k, and the one at k if it ran unseen. */
  ghost function Acquired(t: Table, ids: seq<Id>, saga: Id, net: nat -> Net, i: nat, k: nat): set<Id>
    requires i <= k <= |ids|
  {
    Elems(ids[i..k]) + if k < |ids| && net(k).Ran() && Lockable(t, ids[k], saga) then {ids[k]} else {}
  }

  /** The prices some unlock call from j up to n reached. */
  ghost function Released(ids: seq<Id>, net: nat -> Net, j: nat, n: nat): set<Id>
    requires j <= n <= |ids|
  {
    set m | j <= m < n && net(m).Ran() :: ids[m]
  }

  lemma LockCallEffect(db: Db, x: Id, saga: Id, net: Net)
    requires Sound(db.table)
    ensures LockCall(db, x, saga, net).0.table
         == if net.Ran() && Lockable(db.table, x, saga) then LockAll(db.table, {x}, saga) else db.table
    ensures LockCall(db, x, saga, net).1 <==> net == Delivered && Lockable(db.table, x, saga)
    ensures Sound(LockCall(db, x, saga, net).0.table)
  {
  }

  lemma UnlockCallEffect(db: Db, x: Id, net: Net)
    requires Sound(db.table)
    ensures UnlockCall(db, x, net).table == UnlockAll(db.table, if net.Ran() then {x} else {})
    ensures Sound(UnlockCall(db, x, net).table)
  {
  }

  /** What locking from position i on, stopped at k, does to the table t: it locks the longest run of
      calls answered with 200, and at most the next price besides. */
  ghost predicate LocksRun(t: Table, t': Table, ids: seq<Id>, saga: Id, net: nat -> Net, i: nat, k: nat) {
    && i <= k <= |ids|
    && (forall m :: i <= m < k ==> net(m) == Delivered && Lockable(t, ids[m], saga))
    && (k < |ids| ==> net(k) != Delivered || !Lockable(t, ids[k], saga))
    && t' == LockAll(t, Acquired(t, ids, saga, net, i, k), saga)
  }

  lemma LocksOneMore(t: Table, next: Table, t': Table, ids: seq<Id>, saga: Id, net: nat -> Net, i: nat, k: nat)
    requires i < |ids| && net(i) == Delivered && Lockable(t, ids[i], saga)
    requires next == LockAll(t, {ids[i]}, saga) && LocksRun(next, t', ids, saga, net, i + 1, k)
    ensures LocksRun(t, t', ids, saga, net, i, k)
  {
  }

  lemma {:induction false} LockLoopEffect(db: Db, ids: seq<Id>, saga: Id, net: nat -> Net, i: nat)
    requires i <= |ids| && Sound(db.table)
    ensures var (db', k) := LockLoop(db, ids, saga, net, i);
            LocksRun(db.table, db'.table, ids, saga, net, i, k) && Sound(db'.table)
    decreases |ids| - i
  {
    if i < |ids| {
      LockCallEffect(db, ids[i], saga, net(i));
      var (next, ok) := LockCall(db, ids[i], saga, net(i));
      if ok {
        LockLoopEffect(next, ids, saga, net, i + 1);
        var (db', k) := LockLoop(next, ids, saga, net, i + 1);
        LocksOneMore(db.table, next.table, db'.table, ids, saga, net, i, k);
      }
    }
  }

  lemma ReleasedNext(ids: seq<Id>, net: nat -> Net, j: nat, n: nat)
    requires j < n <= |ids|
    ensures Released(ids, net, j, n) == (if net(j).Ran() then {ids[j]} else {}) + Released(ids, net, j + 1, n)
  {
  }

  lemma UnlockMore(t: Table, xs: set<Id>, ys: set<Id>)
    ensures UnlockAll(UnlockAll(t, xs), ys) == UnlockAll(t, xs + ys)
  {
  }

  /** Where a loop over calls j to n ends: behind the first call that raises, if there is one. */
  ghost predicate EndsAt(net: nat -> Net, j: nat, n: nat, end: nat) {
    && j <= end <= n
    && (forall m :: j <= m < end - 1 ==> !net(m).Raises())
    && (end < n ==> j < end && net(end - 1).Raises())
  }

  lemma EndsOneLater(net: nat -> Net, j: nat, n: nat)
    requires j < n
    ensures net(j).Raises() ==> EndsAt(net, j, n, j + 1)
    ensures !net(j).Raises() ==> forall end :: EndsAt(net, j + 1, n, end) ==> EndsAt(net, j, n, end)
  {
  }

  /** The loop is quiet exactly when no call raises; it ends behind the first one that does, and the prices freed
      are those whose call ran until then. */
  lemma {:induction false} UnlockLoopEffect(db: Db, ids: seq<Id>, net: nat -> Net, j: nat, n: nat)
    requires j <= n <= |ids| && Sound(db.table)
    ensures var (db', quiet) := UnlockLoop(db, ids, net, j, n);
            && (quiet <==> forall m :: j <= m < n ==> !net(m).Raises())
            && (quiet ==> db'.table == UnlockAll(db.table, Released(ids, net, j, n)))
            && (exists end :: EndsAt(net, j, n, end) && db'.table == UnlockAll(db.table, Released(ids, net, j, end)))
            && Sound(db'.table)
    decreases n - j
  {
    if j < n {
      var next, reached := UnlockCall(db, ids[j], net(j)), if net(j).Ran() then {ids[j]} else {};
      UnlockCallEffect(db, ids[j], net(j));
      EndsOneLater(net, j, n);
      if net(j).Raises() {
        ReleasedNext(ids, net, j, j + 1);
        assert Released(ids, net, j, j + 1) == reached;
      } else {
        UnlockLoopEffect(next, ids, net, j + 1, n);
        var (db', _) := UnlockLoop(next, ids, net, j + 1, n);
        var end :| EndsAt(net, j + 1, n, end) && db'.table == UnlockAll(next.table, Released(ids, net, j + 1, end));
        ReleasedNext(ids, net, j, n);
        ReleasedNext(ids, net, j, end);
        UnlockMore(db.table, reached, Released(ids, net, j + 1, n));
        UnlockMore(db.table, reached, Released(ids, net, j + 1, end));
      }
    } else {
      assert EndsAt(net, j, n, n) && Released(ids, net, j, n) == {};
    }
  }

  // ---- all or nothing -------------------------------------------------------------------

  ghost predicate HoldsNothing(t: Table, saga: Id) {
    forall x :: x in t ==> t[x].lockedBy != Some(saga)
  }

  /** For any ids, repeated or missing, and any fate of the calls, with k the first call that is not delivered
      or whose price cannot be locked, if there is one: on success every listed price is
      locked by the saga and no other price moved; a BPMN error leaves the lock table exactly as it
      was if and only if the rollback reached every price the failed attempt had taken. */
  lemma BatchLockAllOrNothing(db: Db, ids: seq<Id>, saga: Id, net: nat -> Net, back: nat -> Net)
    requires Sound(db.table) && HoldsNothing(db.table, saga)
    ensures var (db', outcome) := LockHandler(db, ids, saga, net, back);
            var k := LockLoop(db, ids, saga, net, 0).1;
            && 0 <= k <= |ids|
            && (forall m :: 0 <= m < k ==> net(m) == Delivered && Lockable(db.table, ids[m], saga))
            && (k < |ids| ==> net(k) != Delivered || !Lockable(db.table, ids[k], saga))
            && (outcome == Completed <==>
                  forall m :: 0 <= m < |ids| ==> net(m) == Delivered && Lockable(db.table, ids[m], saga))
            && (outcome == Completed ==>
                  && db'.table == LockAll(db.table, Elems(ids), saga)
                  && forall x :: x in ids ==> x in db'.table && db'.table[x].lockedBy == Some(saga))
            && (outcome == BpmnError ==> (db'.table == db.table <==>
                  Acquired(db.table, ids, saga, net, 0, k) <= Released(ids, back, 0, k)))
            && (outcome == Raised <==> k < |ids| && exists m :: 0 <= m < k && back(m).Raises())
  {
    var (locked, k) := LockLoop(db, ids, saga, net, 0);
    LockLoopEffect(db, ids, saga, net, 0);
    if k == |ids| {
      assert ids[0..k] == ids;
      assert Acquired(db.table, ids, saga, net, 0, k) == Elems(ids);
    } else {
      UnlockLoopEffect(locked, ids, back, 0, k);
      if UnlockLoop(locked, ids, back, 0, k).1 { FailedBatchRestores(db.table, ids, saga, net, back, k); }
    }
  }

  lemma FailedBatchRestores(t: Table, ids: seq<Id>, saga: Id, net: nat -> Net, back: nat -> Net, k: nat)
    requires Sound(t) && HoldsNothing(t, saga) && k < |ids|
    requires forall m :: 0 <= m < k ==> Lockable(t, ids[m], saga)
    ensures var took, freed := Acquired(t, ids, saga, net, 0, k), Released(ids, back, 0, k);
            UnlockAll(LockAll(t, took, saga), freed) == t <==> took <= freed
  {
  }

  /** With every call delivered the handler is all or nothing, with no condition left. */
  lemma QuietBatchLockAllOrNothing(db: Db, ids: seq<Id>, saga: Id, net: nat -> Net, back: nat -> Net)
    requires Sound(db.table) && HoldsNothing(db.table, saga)
    requires forall m: nat :: net(m) != ReplyLost && back(m) == Delivered
    ensures var (db', outcome) := LockHandler(db, ids, saga, net, back);
            (outcome == Completed && db'.table == LockAll(db.table, Elems(ids), saga))
            || (outcome == BpmnError && db'.table == db.table)
  {
    BatchLockAllOrNothing(db, ids, saga, net, back);
    LockLoopEffect(db, ids, saga, net, 0);
    var k := LockLoop(db, ids, saga, net, 0).1;
    forall x | x in ids[0..k] ensures x in Released(ids, back, 0, k) {
      var j :| 0 <= j < k && ids[0..k][j] == x;
      assert back(j).Ran();
    }
  }

  /** A lock request that ran although its reply was lost survives the rollback: the price stays
      locked by a saga that reported failure. */
  lemma LostReplyLeaksLock() returns (db: Db, saga: Id, net: nat -> Net, back: nat -> Net)
    ensures Sound(db.table) && HoldsNothing(db.table, saga) && forall m :: back(m) == Delivered
    ensures var (db', outcome) := LockHandler(db, [1], saga, net, back);
            outcome == BpmnError && 1 in db'.table && db'.table[1].lockedBy == Some(saga)
  {
    db, saga := Db(map[1 := Price("p", 100, "month", USD, false, None)], []), 7;
    net, back := m => ReplyLost, m => Delivered;
    assert LockLoop(db, [1], saga, net, 0).1 == 0;
  }

  /** The batch unlock with every call delivered frees every listed price, whoever holds it. */
  lemma BatchUnlockFreesAnyHolder(db: Db, ids: seq<Id>, net: nat -> Net)
    requires Sound(db.table) && forall m: nat :: net(m) == Delivered
    ensures UnlockHandler(db, ids, net).1 == Completed
    ensures UnlockHandler(db, ids, net).0.table == UnlockAll(db.table, Elems(ids))
  {
    UnlockLoopEffect(db, ids, net, 0, |ids|);
    forall x | x in ids ensures x in Released(ids, net, 0, |ids|) {
      var j :| 0 <= j < |ids| && ids[j] == x;
      assert net(j).Ran();
    }
  }
}

/** The outbox relay: passes that may overlap, crash between publishing and committing, and fail. */
module Relay {
  import opened Common

  /** Outbox rows are numbered in created_at order; a row number stands for its event id. */
  datatype RowStatus = PENDING | SENT | FAILED

  /** What the publisher reports, and how many copies the broker took: an attempt that raised may
      have been accepted, so retries can leave several copies, and a reported failure some. */
  datatype Fate = Accepted(extra: nat) | Rejected(copies: nat) {
    function Copies(): nat { if Accepted? then 1 + extra else copies }

    function Mark(): RowStatus { if Accepted? then SENT else FAILED }
  }

  /** One run of _process_pending_sync: the rows its query returned, how many are done, and the
      status to commit for the current one if it has been published. */
  datatype Pass = Pass(todo: seq<nat>, pos: nat, mark: Option<RowStatus>)

  datatype State = State(rows: seq<RowStatus>, log: seq<nat>, passes: map<Id, Pass>)

  datatype Action =
    | Insert
    | Start(pass: Id)
    | Publish(pass: Id, fate: Fate)
    | Commit(pass: Id)
    | Crash(pass: Id)

  /** Which behaviours of the environment a run may contain. */
  datatype Config = Config(rejections: bool, overlap: bool)

  const INIT := State([], [], map[])

  function Repeat(k: nat, n: nat): seq<nat> { seq(n, _ => k) }

  function PendingUpTo(rows: seq<RowStatus>, n: nat): seq<nat>
    requires n <= |rows|
  {
    if n == 0 then [] else PendingUpTo(rows, n - 1) + if rows[n - 1] == PENDING then [n - 1] else []
  }

  /** The query: pending rows in created_at order. */
  function Pending(rows: seq<RowStatus>): seq<nat> { PendingUpTo(rows, |rows|) }

  ghost predicate Enabled(cfg: Config, s: State, a: Action) {
    match a
    case Insert => true
    case Start(p) => p !in s.passes && (cfg.overlap || s.passes == map[])
    case Publish(p, fate) => p in s.passes && s.passes[p].pos < |s.passes[p].todo| && s.passes[p].mark == None
                             && (cfg.rejections || fate.Accepted?)
    case Commit(p) => p in s.passes && s.passes[p].pos < |s.passes[p].todo| && s.passes[p].mark.Some?
                      && s.passes[p].todo[s.passes[p].pos] < |s.rows|
    case Crash(p) => p in s.passes
  }

  ghost function Exec(cfg: Config, s: State, a: Action): State {
    if !Enabled(cfg, s, a) then s
    else
      match a
      case Insert => s.(rows := s.rows + [PENDING])
      case Start(p) =>
        var todo := Pending(s.rows);
        if todo == [] then s else s.(passes := s.passes[p := Pass(todo, 0, None)])
      case Publish(p, fate) =>
        var pass := s.passes[p];
        s.(log := s.log + Repeat(pass.todo[pass.pos], fate.Copies()),
           passes := s.passes[p := pass.(mark := Some(fate.Mark()))])
      case Commit(p) =>
        var pass := s.passes[p];
        State(s.rows[pass.todo[pass.pos] := pass.mark.value], s.log,
              if pass.pos + 1 == |pass.todo| then s.passes - {p}
              else s.passes[p := Pass(pass.todo, pass.pos + 1, None)])
      case Crash(p) => s.(passes := s.passes - {p})
  }

  ghost function Run(cfg: Config, acts: seq<Action>): State {
    if acts == [] then INIT else Exec(cfg, Run(cfg, acts[..|acts| - 1]), acts[|acts| - 1])
  }

  // ---- ordered delivery -----------------------------------------------------------------

  /** Every entry is preceded by all smaller ones. */
  ghost predicate Gapless(log: seq<nat>) {
    forall i, j :: 0 <= i < |log| && 0 <= j < log[i] ==> j in log[..i]
  }

  /** The list with later repetitions removed. */
  function Dedup(log: seq<nat>): seq<nat> {
    if log == [] then []
    else
      var d := Dedup(log[..|log| - 1]);
      if log[|log| - 1] in log[..|log| - 1] then d else d + [log[|log| - 1]]
  }

  function UpTo(m: nat): seq<nat> { seq(m, i => i) }

  lemma {:induction false} GaplessDedup(log: seq<nat>)
    requires Gapless(log)
    ensures Dedup(log) == UpTo(|Dedup(log)|)
    ensures forall k: nat :: k in log <==> k < |Dedup(log)|
  {
    if log != [] {
      var front, last := log[..|log| - 1], log[|log| - 1];
      forall i | 0 <= i < |front| ensures front[..i] == log[..i] {}
      GaplessDedup(front);
      assert forall k :: k in log <==> k in front || k == last;
      if last !in front {
        forall j: nat | j < last ensures j in front { assert j in log[..|log| - 1]; }
        var m := |Dedup(front)|;
        assert m !in front;
        assert last == m;
      }
    }
  }

  lemma {:induction false} DedupGapless(log: seq<nat>)
    requires Dedup(log) == UpTo(|Dedup(log)|)
    ensures Gapless(log)
    ensures forall k: nat :: k in log <==> k < |Dedup(log)|
  {
    if log != [] {
      var front, last := log[..|log| - 1], log[|log| - 1];
      var d := Dedup(front);
      if last !in front { assert d == Dedup(log)[..|d|] == UpTo(|d|) && last == Dedup(log)[|d|]; }
      DedupGapless(front);
      assert forall k :: k in log <==> k in front || k == last;
      forall i, j | 0 <= i < |log| && 0 <= j < log[i] ensures j in log[..i] {
        if i < |front| { assert log[..i] == front[..i]; } else { assert log[..i] == front; }
      }
    }
  }

  /** What one pass still guarantees: its snapshot is ascending, and every row below the one at
      position i is earlier in the snapshot or already published. */
  ghost predicate PassSound(s: State, pass: Pass) {
    && pass.pos < |pass.todo|
    && (forall i :: 0 <= i < |pass.todo| ==> pass.todo[i] < |s.rows|)
    && (forall i, j :: 0 <= i < |pass.todo| && 0 <= j < pass.todo[i] ==> j in pass.todo[..i] || j in s.log)
    && (forall i :: 0 <= i < pass.pos ==> pass.todo[i] in s.log)
    && (pass.mark.Some? ==> pass.mark.value == SENT && pass.todo[pass.pos] in s.log)
  }

  ghost predicate OrderInv(s: State) {
    && Gapless(s.log)
    && (forall k :: k in s.log ==> k < |s.rows|)
    && (forall k :: 0 <= k < |s.rows| && s.rows[k] != PENDING ==> k in s.log)
    && (forall p :: p in s.passes ==> PassSound(s, s.passes[p]))
  }

  lemma {:induction false} PendingIsExact(rows: seq<RowStatus>, n: nat)
    requires n <= |rows|
    ensures forall k :: k in PendingUpTo(rows, n) <==> 0 <= k < n && rows[k] == PENDING
    ensures forall i, j :: 0 <= i < |PendingUpTo(rows, n)| && 0 <= j < PendingUpTo(rows, n)[i] < n && rows[j] == PENDING
              ==> j in PendingUpTo(rows, n)[..i]
  {
    if n > 0 {
      PendingIsExact(rows, n - 1);
      var was, now := PendingUpTo(rows, n - 1), PendingUpTo(rows, n);
      forall i, j | 0 <= i < |now| && 0 <= j < now[i] < n && rows[j] == PENDING ensures j in now[..i] {
        if i < |was| { assert now[..i] == was[..i]; } else { assert now[..i] == was; }
      }
    }
  }

  lemma StartKeepsOrder(s: State, p: Id)
    requires OrderInv(s) && Pending(s.rows) != []
    ensures PassSound(s, Pass(Pending(s.rows), 0, None))
  {
    PendingIsExact(s.rows, |s.rows|);
    var todo := Pending(s.rows);
    forall i | 0 <= i < |todo| ensures todo[i] < |s.rows| { assert todo[i] in todo; }
  }

  lemma LogGrows(log: seq<nat>, k: nat, n: nat)
    requires Gapless(log) && forall j :: 0 <= j < k ==> j in log
    ensures Gapless(log + Repeat(k, n))
    ensures forall j :: j in log + Repeat(k, n) <==> j in log || (n > 0 && j == k)
  {
    var log' := log + Repeat(k, n);
    forall i, j | 0 <= i < |log'| && 0 <= j < log'[i] ensures j in log'[..i] {
      if i < |log| {
        assert j in log[..i] && log'[..i] == log[..i];
      } else {
        assert log'[i] == k && j in log && log'[..i] == log + log'[|log|..i];
      }
    }
    if n > 0 { assert log'[|log|] == k; }
    forall j | j in log' ensures j in log || (n > 0 && j == k) {
      var m :| 0 <= m < |log'| && log'[m] == j;
    }
  }

  lemma PassStaysSound(s: State, s': State, pass: Pass)
    requires PassSound(s, pass) && |s.rows| <= |s'.rows| && forall k :: k in s.log ==> k in s'.log
    ensures PassSound(s', pass)
  {
  }

  lemma ExecKeepsOrder(cfg: Config, s: State, a: Action)
    requires OrderInv(s) && !cfg.rejections
    ensures OrderInv(Exec(cfg, s, a))
  {
    var s' := Exec(cfg, s, a);
    if a.Start? && Pending(s.rows) != [] { StartKeepsOrder(s, a.pass); }
    if a.Publish? && Enabled(cfg, s, a) { PublishKeepsOrder(cfg, s, a); }
    if a.Commit? && Enabled(cfg, s, a) { CommitKeepsOrder(cfg, s, a); }
    if a.Insert? || a.Start? || a.Crash? {
      forall p | p in s'.passes && p in s.passes && s'.passes[p] == s.passes[p] ensures PassSound(s', s'.passes[p]) {
        PassStaysSound(s, s', s.passes[p]);
      }
    }
  }

  lemma PublishKeepsOrder(cfg: Config, s: State, a: Action)
    requires OrderInv(s) && !cfg.rejections && a.Publish? && Enabled(cfg, s, a)
    ensures OrderInv(Exec(cfg, s, a))
  {
    var s', pass := Exec(cfg, s, a), s.passes[a.pass];
    var k := pass.todo[pass.pos];
    forall j | 0 <= j < k ensures j in s.log {
      assert j in pass.todo[..pass.pos] || j in s.log;
    }
    LogGrows(s.log, k, a.fate.Copies());
    forall p | p in s'.passes ensures PassSound(s', s'.passes[p]) {
      PassStaysSound(s, s', s.passes[p]);
    }
  }

  lemma CommitKeepsOrder(cfg: Config, s: State, a: Action)
    requires OrderInv(s) && !cfg.rejections && a.Commit? && Enabled(cfg, s, a)
    ensures OrderInv(Exec(cfg, s, a))
  {
    var s' := Exec(cfg, s, a);
    assert PassSound(s, s.passes[a.pass]);
    forall p | p in s'.passes ensures PassSound(s', s'.passes[p]) {
      PassStaysSound(s, s', s.passes[p]);
    }
  }

  lemma {:induction false} RunKeepsOrder(cfg: Config, acts: seq<Action>)
    requires !cfg.rejections
    ensures OrderInv(Run(cfg, acts))
  {
    if acts != [] {
      RunKeepsOrder(cfg, acts[..|acts| - 1]);
      ExecKeepsOrder(cfg, Run(cfg, acts[..|acts| - 1]), acts[|acts| - 1]);
    }
  }

  // ---- order is the absence of overtaking ---------------------------------------------------

  /** The step has the broker take a row while an older row has not got there. */
  ghost predicate Overtakes(cfg: Config, s: State, a: Action) {
    && a.Publish? && Enabled(cfg, s, a) && a.fate.Copies() > 0
    && exists j :: 0 <= j < s.passes[a.pass].todo[s.passes[a.pass].pos] && j !in s.log
  }

  /** Whatever is rejected, overlaps or crashes: a step leaves the log without a hole if and only if it does not
      overtake. */
  lemma OrderedUnlessOvertaken(cfg: Config, s: State, a: Action)
    requires Gapless(s.log)
    ensures Gapless(Exec(cfg, s, a).log) <==> !Overtakes(cfg, s, a)
  {
    if a.Publish? && Enabled(cfg, s, a) {
      var log', k := Exec(cfg, s, a).log, s.passes[a.pass].todo[s.passes[a.pass].pos];
      if Overtakes(cfg, s, a) {
        var j :| 0 <= j < k && j !in s.log;
        assert log'[|s.log|] == k && log'[..|s.log|] == s.log;
      } else if a.fate.Copies() == 0 {
        assert log' == s.log;
      } else {
        LogGrows(s.log, k, a.fate.Copies());
      }
    }
  }

  /** No step of the run overtakes. */
  ghost predicate NeverOvertakes(cfg: Config, acts: seq<Action>) {
    acts == [] || (NeverOvertakes(cfg, acts[..|acts| - 1])
      && !Overtakes(cfg, Run(cfg, acts[..|acts| - 1]), acts[|acts| - 1]))
  }

  lemma {:induction false} GaplessIsNeverOvertakes(cfg: Config, acts: seq<Action>)
    ensures Gapless(Run(cfg, acts).log) <==> NeverOvertakes(cfg, acts)
  {
    if acts != [] {
      var front, a := acts[..|acts| - 1], acts[|acts| - 1];
      GaplessIsNeverOvertakes(cfg, front);
      if NeverOvertakes(cfg, front) {
        OrderedUnlessOvertaken(cfg, Run(cfg, front), a);
      } else {
        LogOnlyGrows(cfg, Run(cfg, front), a);
        HolesStay(Run(cfg, front).log, Run(cfg, acts).log);
      }
    }
  }

  lemma HolesStay(log: seq<nat>, log': seq<nat>)
    requires log <= log'
    ensures Gapless(log') ==> Gapless(log)
  {
    if Gapless(log') {
      forall i, j | 0 <= i < |log| && 0 <= j < log[i] ensures j in log[..i] { assert log'[..i] == log[..i]; }
    }
  }

  lemma LogOnlyGrows(cfg: Config, s: State, a: Action)
    ensures s.log <= Exec(cfg, s, a).log
  {
  }

  /** Only rows of the outbox are published. */
  ghost predicate KnowsRows(s: State) {
    && (forall k :: k in s.log ==> k < |s.rows|)
    && forall p :: p in s.passes ==> forall k :: k in s.passes[p].todo ==> k < |s.rows|
  }

  lemma {:induction false} RunKnowsRows(cfg: Config, acts: seq<Action>)
    ensures KnowsRows(Run(cfg, acts))
  {
    if acts != [] {
      var s, a := Run(cfg, acts[..|acts| - 1]), acts[|acts| - 1];
      RunKnowsRows(cfg, acts[..|acts| - 1]);
      PendingIsExact(s.rows, |s.rows|);
      assert forall p :: p in s.passes ==> forall i :: 0 <= i < |s.passes[p].todo| ==>
        s.passes[p].todo[i] in s.passes[p].todo;
    }
  }

  /** Without rejections nothing overtakes, whatever passes overlap or crash. */
  lemma AcceptedRowsKeepOrder(cfg: Config, acts: seq<Action>)
    requires !cfg.rejections
    ensures NeverOvertakes(cfg, acts)
  {
    RunKeepsOrder(cfg, acts);
    GaplessIsNeverOvertakes(cfg, acts);
  }

  /** Whatever is rejected, overlaps or crashes: the broker log with repetitions removed is a prefix of the
      outbox, in order, if and only if no publish overtakes an older row; and it then holds every SENT row. */
  lemma BrokerLogIsOutboxPrefix(cfg: Config, acts: seq<Action>)
    ensures var s := Run(cfg, acts);
            var m := |Dedup(s.log)|;
            && (Dedup(s.log) == UpTo(m) <==> NeverOvertakes(cfg, acts))
            && (NeverOvertakes(cfg, acts) ==>
                  m <= |s.rows| && forall k :: 0 <= k < |s.rows| && s.rows[k] == SENT ==> k < m)
  {
    var s := Run(cfg, acts);
    GaplessIsNeverOvertakes(cfg, acts);
    if Dedup(s.log) == UpTo(|Dedup(s.log)|) { DedupGapless(s.log); }
    if Gapless(s.log) {
      GaplessDedup(s.log);
      RunKnowsRows(cfg, acts);
      if |Dedup(s.log)| > 0 { assert |Dedup(s.log)| - 1 in s.log; }
      RunKeepsStatus(cfg, acts);
    }
  }

  /** A consumer that has read any part of such a log and skips ids it has seen has handled a prefix of the
      outbox, each event once and in order. */
  lemma DedupingConsumerHandlesPrefix(cfg: Config, acts: seq<Action>, read: nat)
    requires NeverOvertakes(cfg, acts) && read <= |Run(cfg, acts).log|
    ensures var handled := Dedup(Run(cfg, acts).log[..read]);
            handled == UpTo(|handled|) && |handled| <= |Run(cfg, acts).rows|
  {
    var s := Run(cfg, acts);
    var part := s.log[..read];
    GaplessIsNeverOvertakes(cfg, acts);
    HolesStay(part, s.log);
    GaplessDedup(part);
    RunKnowsRows(cfg, acts);
    if |Dedup(part)| > 0 {
      assert |Dedup(part)| - 1 in part;
      assert |Dedup(part)| - 1 in s.log;
    }
  }

  /** One rejected publish is enough to leave a hole: row 0 is FAILED for good and row 1 overtakes it. */
  lemma RejectionLeavesHole() returns (acts: seq<Action>)
    ensures Dedup(Run(Config(true, false), acts).log) == [1]
    ensures Run(Config(true, false), acts).rows == [FAILED, PENDING]
  {
    var cfg := Config(true, false);
    acts := RejectedFirstRow(cfg);
    acts := Extend(cfg, acts, RejectedOnce(), Commit(0), State([FAILED, PENDING], [], map[0 := Pass([0, 1], 1, None)]));
    acts := Extend(cfg, acts, State([FAILED, PENDING], [], map[0 := Pass([0, 1], 1, None)]), Publish(0, Accepted(0)),
                   State([FAILED, PENDING], [1], map[0 := Pass([0, 1], 1, Some(SENT))]));
    assert [1][..0] == [];
  }

  ghost function RejectedOnce(): State {
    State([PENDING, PENDING], [], map[0 := Pass([0, 1], 0, Some(FAILED))])
  }

  lemma RejectedFirstRow(cfg: Config) returns (acts: seq<Action>)
    requires cfg == Config(true, false)
    ensures Run(cfg, acts) == RejectedOnce()
  {
    var s2 := State([PENDING, PENDING], [], map[]);
    var s3 := State([PENDING, PENDING], [], map[0 := Pass([0, 1], 0, None)]);
    acts := Extend(cfg, [], INIT, Insert, State([PENDING], [], map[]));
    acts := Extend(cfg, acts, State([PENDING], [], map[]), Insert, s2);
    assert PendingUpTo(s2.rows, 1) == [0] && Pending(s2.rows) == [0, 1];
    acts := Extend(cfg, acts, s2, Start(0), s3);
    acts := Extend(cfg, acts, s3, Publish(0, Rejected(0)), RejectedOnce());
  }

  lemma RunStep(cfg: Config, acts: seq<Action>, a: Action)
    ensures Run(cfg, acts + [a]) == Exec(cfg, Run(cfg, acts), a)
  {
    assert (acts + [a])[..|acts|] == acts;
  }

  lemma Extend(cfg: Config, acts: seq<Action>, s: State, a: Action, s': State) returns (acts': seq<Action>)
    requires Run(cfg, acts) == s && Exec(cfg, s, a) == s'
    ensures acts' == acts + [a] && Run(cfg, acts') == s'
  {
    acts' := acts + [a];
    RunStep(cfg, acts, a);
  }

  /** A pass that fetched its rows before another pass finished publishes row 0 again behind row 1, and
      crashes there. */
  lemma OverlapRewindsLog() returns (acts: seq<Action>)
    ensures var s := Run(Config(false, true), acts); s.log == [0, 1, 0] && s.rows == [SENT, SENT]
  {
    var cfg := Config(false, true);
    var late := Pass([0, 1], 0, None);
    acts := BothFetched(cfg);
    acts := PassDelivers(cfg, acts);
    acts := Extend(cfg, acts, State([SENT, SENT], [0, 1], map[1 := late]), Publish(1, Accepted(0)),
                   State([SENT, SENT], [0, 1, 0], map[1 := Pass([0, 1], 0, Some(SENT))]));
  }

  lemma BothFetched(cfg: Config) returns (acts: seq<Action>)
    requires cfg.overlap
    ensures Run(cfg, acts) == State([PENDING, PENDING], [], map[0 := Pass([0, 1], 0, None), 1 := Pass([0, 1], 0, None)])
  {
    var s2 := State([PENDING, PENDING], [], map[]);
    var s3 := State([PENDING, PENDING], [], map[0 := Pass([0, 1], 0, None)]);
    acts := Extend(cfg, [], INIT, Insert, State([PENDING], [], map[]));
    acts := Extend(cfg, acts, State([PENDING], [], map[]), Insert, s2);
    assert PendingUpTo(s2.rows, 1) == [0] && Pending(s2.rows) == [0, 1];
    acts := Extend(cfg, acts, s2, Start(0), s3);
    acts := Extend(cfg, acts, s3, Start(1), s3.(passes := s3.passes[1 := Pass([0, 1], 0, None)]));
  }

  lemma PassDelivers(cfg: Config, before: seq<Action>) returns (acts: seq<Action>)
    requires Run(cfg, before) == State([PENDING, PENDING], [],
             map[0 := Pass([0, 1], 0, None), 1 := Pass([0, 1], 0, None)])
    ensures Run(cfg, acts) == State([SENT, SENT], [0, 1], map[1 := Pass([0, 1], 0, None)])
  {
    var late := Pass([0, 1], 0, None);
    var s0 := State([PENDING, PENDING], [], map[0 := late, 1 := late]);
    var s1 := State([PENDING, PENDING], [0], map[0 := Pass([0, 1], 0, Some(SENT)), 1 := late]);
    var s2 := State([SENT, PENDING], [0], map[0 := Pass([0, 1], 1, None), 1 := late]);
    var s3 := State([SENT, PENDING], [0, 1], map[0 := Pass([0, 1], 1, Some(SENT)), 1 := late]);
    acts := Extend(cfg, before, s0, Publish(0, Accepted(0)), s1);
    acts := Extend(cfg, acts, s1, Commit(0), s2);
    acts := Extend(cfg, acts, s2, Publish(0, Accepted(0)), s3);
    acts := Extend(cfg, acts, s3, Commit(0), State([SENT, SENT], [0, 1], map[1 := late]));
  }

  // ---- one pass at a time -----------------------------------------------------------------

  /** Each row repeated at least once before the next one. */
  ghost predicate Stutters(log: seq<nat>) {
    && (log != [] ==> log[0] == 0)
    && (forall i :: 0 < i < |log| ==> log[i] == log[i - 1] || log[i] == log[i - 1] + 1)
  }

  /** The first c rows are committed, the rest pending; the pass, if any, works on row c, and the
      log ends just before c, or at c if c is published. */
  ghost predicate SingleInv(s: State, c: nat) {
    && c <= |s.rows|
    && (forall k :: 0 <= k < |s.rows| ==> s.rows[k] == if k < c then SENT else PENDING)
    && Stutters(s.log)
    && (s.log == [] ==> c == 0)
    && (s.log != [] ==> s.log[|s.log| - 1] + 1 == c || (s.log[|s.log| - 1] == c < |s.rows|))
    && (forall p, q :: p in s.passes && q in s.passes ==> p == q)
    && (forall p :: p in s.passes ==> WorksOn(s, s.passes[p], c))
  }

  /** The pass goes through the pending rows in order and is at row c. */
  ghost predicate WorksOn(s: State, pass: Pass, c: nat) {
    && pass.pos < |pass.todo|
    && (forall i :: 0 <= i < |pass.todo| ==> pass.todo[i] == c + i - pass.pos && pass.todo[i] < |s.rows|)
    && (pass.mark.Some? ==> pass.mark == Some(SENT) && s.log != [] && s.log[|s.log| - 1] == c)
  }

  lemma AllSentMeansDone(s: State, c: nat)
    requires SingleInv(s, c)
    ensures (forall k :: 0 <= k < |s.rows| ==> s.rows[k] == SENT) ==> c == |s.rows|
  {
    if c < |s.rows| { assert s.rows[c] == PENDING; }
  }

  lemma {:induction false} PendingIsSuffix(rows: seq<RowStatus>, c: nat, n: nat)
    requires n <= |rows| && forall k :: 0 <= k < n ==> rows[k] == if k < c then SENT else PENDING
    ensures var todo := PendingUpTo(rows, n);
            |todo| == (if n < c then 0 else n - c) && forall i :: 0 <= i < |todo| ==> todo[i] == c + i
  {
    if n > 0 { PendingIsSuffix(rows, c, n - 1); }
  }

  lemma StutterGrows(log: seq<nat>, k: nat, n: nat)
    requires Stutters(log) && n > 0
    requires if log == [] then k == 0 else k == log[|log| - 1] || k == log[|log| - 1] + 1
    ensures Stutters(log + Repeat(k, n)) && (log + Repeat(k, n))[|log| + n - 1] == k
  {
  }

  lemma PublishKeepsSingle(cfg: Config, s: State, c: nat, p: Id, fate: Fate)
    requires SingleInv(s, c) && !cfg.rejections && Enabled(cfg, s, Publish(p, fate))
    ensures SingleInv(Exec(cfg, s, Publish(p, fate)), c)
  {
    var s', pass := Exec(cfg, s, Publish(p, fate)), s.passes[p];
    assert WorksOn(s, pass, c) && pass.todo[pass.pos] == c;
    StutterGrows(s.log, c, fate.Copies());
    assert s'.rows == s.rows && s'.passes == s.passes[p := pass.(mark := Some(SENT))];
    assert s'.log != [] && s'.log[|s'.log| - 1] == c;
    assert WorksOn(s', s'.passes[p], c);
  }

  lemma CommitKeepsSingle(cfg: Config, s: State, c: nat, p: Id)
    requires SingleInv(s, c) && Enabled(cfg, s, Commit(p))
    ensures SingleInv(Exec(cfg, s, Commit(p)), c + 1)
  {
    var s', pass := Exec(cfg, s, Commit(p)), s.passes[p];
    assert WorksOn(s, pass, c) && pass.todo[pass.pos] == c;
    assert s'.rows == s.rows[c := SENT] && s'.log == s.log;
    assert forall q :: q in s'.passes ==> q == p;
    if p in s'.passes { assert WorksOn(s', Pass(pass.todo, pass.pos + 1, None), c + 1); }
  }

  lemma StartKeepsSingle(cfg: Config, s: State, c: nat, p: Id)
    requires SingleInv(s, c) && !cfg.overlap && Enabled(cfg, s, Start(p))
    ensures SingleInv(Exec(cfg, s, Start(p)), c)
  {
    PendingIsSuffix(s.rows, c, |s.rows|);
    if Pending(s.rows) != [] { assert WorksOn(s, Pass(Pending(s.rows), 0, None), c); }
  }

  lemma OthersKeepSingle(cfg: Config, s: State, c: nat, a: Action)
    requires SingleInv(s, c) && (a.Insert? || a.Crash?) && Enabled(cfg, s, a)
    ensures SingleInv(Exec(cfg, s, a), c)
  {
    var s' := Exec(cfg, s, a);
    forall p | p in s'.passes ensures WorksOn(s', s'.passes[p], c) { assert WorksOn(s, s.passes[p], c); }
  }

  lemma ExecKeepsSingle(cfg: Config, s: State, c: nat, a: Action) returns (c': nat)
    requires SingleInv(s, c) && !cfg.rejections && !cfg.overlap
    ensures SingleInv(Exec(cfg, s, a), c')
  {
    c' := c;
    if Enabled(cfg, s, a) {
      match a
      case Insert => OthersKeepSingle(cfg, s, c, a);
      case Start(p) => StartKeepsSingle(cfg, s, c, p);
      case Publish(p, fate) => PublishKeepsSingle(cfg, s, c, p, fate);
      case Commit(p) =>
        CommitKeepsSingle(cfg, s, c, p);
        c' := c + 1;
      case Crash(p) => OthersKeepSingle(cfg, s, c, a);
    }
  }

  lemma {:induction false} RunKeepsSingle(cfg: Config, acts: seq<Action>) returns (c: nat)
    requires !cfg.rejections && !cfg.overlap
    ensures SingleInv(Run(cfg, acts), c)
  {
    if acts == [] {
      c := 0;
    } else {
      c := RunKeepsSingle(cfg, acts[..|acts| - 1]);
      c := ExecKeepsSingle(cfg, Run(cfg, acts[..|acts| - 1]), c, acts[|acts| - 1]);
    }
  }

  // ---- statuses with failures allowed -------------------------------------------------------

  ghost predicate StatusInv(s: State) {
    && (forall k :: 0 <= k < |s.rows| && s.rows[k] == SENT ==> k in s.log)
    && (forall p :: p in s.passes ==>
          var pass := s.passes[p];
          pass.mark.Some? ==> pass.mark.value != PENDING && pass.pos < |pass.todo|
                              && (pass.mark.value == SENT ==> pass.todo[pass.pos] in s.log))
  }

  lemma ExecKeepsStatus(cfg: Config, s: State, a: Action)
    requires StatusInv(s)
    ensures StatusInv(Exec(cfg, s, a))
    ensures var s' := Exec(cfg, s, a);
            |s.rows| <= |s'.rows| && forall k :: 0 <= k < |s.rows| && s.rows[k] != PENDING ==> s'.rows[k] != PENDING
  {
    if a.Publish? && Enabled(cfg, s, a) {
      var pass, n := s.passes[a.pass], a.fate.Copies();
      var k, log' := pass.todo[pass.pos], s.log + Repeat(pass.todo[pass.pos], n);
      assert forall j :: j in s.log ==> j in log';
      assert n > 0 ==> log'[|s.log|] == k;
    }
  }

  lemma {:induction false} RunKeepsStatus(cfg: Config, acts: seq<Action>)
    ensures StatusInv(Run(cfg, acts))
  {
    if acts != [] {
      RunKeepsStatus(cfg, acts[..|acts| - 1]);
      ExecKeepsStatus(cfg, Run(cfg, acts[..|acts| - 1]), acts[|acts| - 1]);
    }
  }

  /** Even with overlapping passes, crashes and failed publishes: a SENT row was accepted by the
      broker, and a row that left PENDING never returns to it. */
  lemma {:induction false} StatusesAreSound(cfg: Config, acts: seq<Action>, more: seq<Action>)
    ensures var s, s' := Run(cfg, acts), Run(cfg, acts + more);
            |s.rows| <= |s'.rows|
            && (forall k :: 0 <= k < |s'.rows| && s'.rows[k] == SENT ==> k in s'.log)
            && (forall k :: 0 <= k < |s.rows| && s.rows[k] != PENDING ==> s'.rows[k] != PENDING)
  {
    RunKeepsStatus(cfg, acts + more);
    if more == [] {
      assert acts + more == acts;
    } else {
      var front, a := more[..|more| - 1], more[|more| - 1];
      StatusesAreSound(cfg, acts, front);
      RunKeepsStatus(cfg, acts + front);
      RunStep(cfg, acts + front, a);
      assert (acts + front) + [a] == acts + more;
      ExecKeepsStatus(cfg, Run(cfg, acts + front), a);
    }
  }

  // ---- the listener object ----------------------------------------------------------------

  function PublishAll(todo: seq<nat>, fate: nat -> Fate): seq<nat> {
    if todo == [] then []
    else PublishAll(todo[..|todo| - 1], fate) + Repeat(todo[|todo| - 1], fate(todo[|todo| - 1]).Copies())
  }

  lemma PublishNext(todo: seq<nat>, i: nat, fate: nat -> Fate)
    requires i < |todo|
    ensures PublishAll(todo[..i + 1], fate) == PublishAll(todo[..i], fate) + Repeat(todo[i], fate(todo[i]).Copies())
  {
    assert todo[..i + 1][..i] == todo[..i];
  }

  /** The rows of `done` have got their marks, the others are as before. */
  ghost predicate Settled(before: seq<RowStatus>, rows: seq<RowStatus>, done: seq<nat>, fate: nat -> Fate) {
    && |rows| == |before|
    && forall k :: 0 <= k < |rows| ==> rows[k] == if k in done then fate(k).Mark() else before[k]
  }

  lemma SettledNext(before: seq<RowStatus>, rows: seq<RowStatus>, todo: seq<nat>, i: nat, fate: nat -> Fate)
    requires i < |todo| && todo[i] < |rows| && Settled(before, rows, todo[..i], fate)
    ensures Settled(before, rows[todo[i] := fate(todo[i]).Mark()], todo[..i + 1], fate)
  {
    assert todo[..i + 1] == todo[..i] + [todo[i]];
  }

  lemma {:induction false} PendingAscends(rows: seq<RowStatus>, n: nat)
    requires n <= |rows|
    ensures forall i :: 0 <= i < |PendingUpTo(rows, n)| ==> PendingUpTo(rows, n)[i] < n
    ensures forall i, j :: 0 <= i < j < |PendingUpTo(rows, n)| ==> PendingUpTo(rows, n)[i] < PendingUpTo(rows, n)[j]
  {
    if n > 0 { PendingAscends(rows, n - 1); }
  }

  /** The published copies are in the order of the rows; each row is there as often as its fate says, if at all. */
  lemma {:induction false} PublishedInOrder(todo: seq<nat>, fate: nat -> Fate)
    requires forall i, j :: 0 <= i < j < |todo| ==> todo[i] < todo[j]
    ensures var log := PublishAll(todo, fate);
            && (forall i, j :: 0 <= i < j < |log| ==> log[i] <= log[j])
            && (forall k :: k in log ==> k in todo)
            && (forall k :: k in todo ==> multiset(log)[k] == match fate(k)
                                                              case Accepted(extra) => 1 + extra
                                                              case Rejected(copies) => copies)
  {
    if todo != [] {
      var front, k := todo[..|todo| - 1], todo[|todo| - 1];
      PublishedInOrder(front, fate);
      var before, n := PublishAll(front, fate), fate(k).Copies();
      assert k !in before;
      forall j | j in before ensures j < k { assert j in front; }
      CopiesFollow(before, k, n);
      assert todo == front + [k];
    }
  }

  lemma CopiesFollow(log: seq<nat>, k: nat, n: nat)
    requires (forall i, j :: 0 <= i < j < |log| ==> log[i] <= log[j]) && forall j :: j in log ==> j < k
    ensures var log' := log + Repeat(k, n);
            && (forall i, j :: 0 <= i < j < |log'| ==> log'[i] <= log'[j])
            && (forall j :: j in log' ==> j in log || j == k)
            && multiset(log')[k] == n && forall j :: j != k ==> multiset(log')[j] == multiset(log)[j]
  {
    RepeatCounts(k, n);
    forall i | 0 <= i < |log| ensures log[i] < k { assert log[i] in log; }
    assert multiset(log + Repeat(k, n)) == multiset(log) + multiset(Repeat(k, n));
  }

  lemma {:induction false} RepeatCounts(k: nat, n: nat)
    ensures multiset(Repeat(k, n))[k] == n && forall j :: j in Repeat(k, n) ==> j == k
  {
    if n > 0 {
      RepeatCounts(k, n - 1);
      assert Repeat(k, n) == Repeat(k, n - 1) + [k];
    }
  }

  /** The steps of a pass that nothing interrupts, after its query. */
  function PassActs(p: Id, todo: seq<nat>, fate: nat -> Fate): seq<Action> {
    if todo == [] then []
    else PassActs(p, todo[..|todo| - 1], fate) + [Publish(p, fate(todo[|todo| - 1])), Commit(p)]
  }

  /** The state when the first i rows of the pass are settled. */
  ghost predicate PassAt(s: State, s': State, p: Id, todo: seq<nat>, i: nat, fate: nat -> Fate)
    requires i <= |todo|
  {
    && Settled(s.rows, s'.rows, todo[..i], fate) && s'.log == s.log + PublishAll(todo[..i], fate)
    && s'.passes == if i < |todo| then s.passes[p := Pass(todo, i, None)] else s.passes - {p}
  }

  lemma PassMoves(cfg: Config, s: State, now: State, p: Id, todo: seq<nat>, i: nat, fate: nat -> Fate)
    requires i < |todo| && PassAt(s, now, p, todo, i, fate) && todo[i] < |s.rows|
    requires cfg.rejections || fate(todo[i]).Accepted?
    ensures PassAt(s, Exec(cfg, Exec(cfg, now, Publish(p, fate(todo[i]))), Commit(p)), p, todo, i + 1, fate)
  {
    PublishNext(todo, i, fate);
    SettledNext(s.rows, now.rows, todo, i, fate);
  }

  lemma {:induction false} PassRuns(cfg: Config, acts: seq<Action>, s: State, p: Id, todo: seq<nat>, i: nat,
                                    fate: nat -> Fate)
    requires 0 < |todo| && i <= |todo| && forall k :: k in todo ==> k < |s.rows|
    requires cfg.rejections || forall k :: k in todo ==> fate(k).Accepted?
    requires Run(cfg, acts) == s.(passes := s.passes[p := Pass(todo, 0, None)])
    ensures PassAt(s, Run(cfg, acts + PassActs(p, todo[..i], fate)), p, todo, i, fate)
  {
    if i == 0 {
      assert acts + PassActs(p, todo[..0], fate) == acts;
    } else {
      PassRuns(cfg, acts, s, p, todo, i - 1, fate);
      var k, before := todo[i - 1], acts + PassActs(p, todo[..i - 1], fate);
      assert k in todo && todo[..i][..i - 1] == todo[..i - 1];
      assert acts + PassActs(p, todo[..i], fate) == (before + [Publish(p, fate(k))]) + [Commit(p)];
      RunStep(cfg, before, Publish(p, fate(k)));
      RunStep(cfg, before + [Publish(p, fate(k))], Commit(p));
      PassMoves(cfg, s, Run(cfg, before), p, todo, i - 1, fate);
    }
  }

  /** Every row that was pending is marked by its fate, the others are as before. */
  ghost predicate AllSettled(before: seq<RowStatus>, rows: seq<RowStatus>, fate: nat -> Fate) {
    && |rows| == |before|
    && forall k :: 0 <= k < |rows| ==>
         rows[k] == if before[k] != PENDING then before[k] else if fate(k).Accepted? then SENT else FAILED
  }

  lemma SettledAll(before: seq<RowStatus>, rows: seq<RowStatus>, fate: nat -> Fate)
    requires Settled(before, rows, Pending(before), fate)
    ensures AllSettled(before, rows, fate)
  {
    PendingIsExact(before, |before|);
  }

  /** A pass that starts in any reached state and is not interrupted publishes every pending row and leaves none
      pending, each row marked by its own fate: what the listener's method does. */
  lemma UninterruptedPassSettlesAll(cfg: Config, acts: seq<Action>, p: Id, fate: nat -> Fate)
    requires p !in Run(cfg, acts).passes && (cfg.overlap || Run(cfg, acts).passes == map[])
    requires cfg.rejections || forall k :: fate(k).Accepted?
    ensures var s := Run(cfg, acts);
            var s' := Run(cfg, (acts + [Start(p)]) + PassActs(p, Pending(s.rows), fate));
            && s'.passes == s.passes && s'.log == s.log + PublishAll(Pending(s.rows), fate)
            && AllSettled(s.rows, s'.rows, fate)
  {
    var s := Run(cfg, acts);
    var todo := Pending(s.rows);
    PendingIsExact(s.rows, |s.rows|);
    RunStep(cfg, acts, Start(p));
    if todo == [] {
      assert (acts + [Start(p)]) + PassActs(p, todo, fate) == acts + [Start(p)];
      assert s.log + [] == s.log;
    } else {
      PassRuns(cfg, acts + [Start(p)], s, p, todo, |todo|, fate);
      assert todo[..|todo|] == todo;
    }
    var s' := Run(cfg, (acts + [Start(p)]) + PassActs(p, todo, fate));
    SettledAll(s.rows, s'.rows, fate);
  }

  /** A new row is SENT by the next uninterrupted pass whose publishes the broker accepts, and is then in the log. */
  lemma NewRowIsSent(cfg: Config, acts: seq<Action>, p: Id, fate: nat -> Fate)
    requires p !in Run(cfg, acts).passes && (cfg.overlap || Run(cfg, acts).passes == map[])
    requires forall k :: fate(k).Accepted?
    ensures var k, inserted := |Run(cfg, acts).rows|, acts + [Insert];
            var s' := Run(cfg, (inserted + [Start(p)]) + PassActs(p, Pending(Run(cfg, inserted).rows), fate));
            k < |s'.rows| && s'.rows[k] == SENT && k in s'.log
  {
    var k, inserted := |Run(cfg, acts).rows|, acts + [Insert];
    RunStep(cfg, acts, Insert);
    var rows := Run(cfg, inserted).rows;
    UninterruptedPassSettlesAll(cfg, inserted, p, fate);
    PendingIsExact(rows, |rows|);
    PendingAscends(rows, |rows|);
    PublishedInOrder(Pending(rows), fate);
    assert k in Pending(rows);
    assert multiset(PublishAll(Pending(rows), fate))[k] > 0;
  }

  class OutboxListener {
    var rows: seq<RowStatus>
    var log: seq<nat>

    method QueryPending() returns (todo: seq<nat>)
      ensures todo == Pending(rows)
    {
      todo := [];
      for i := 0 to |rows|
        invariant todo == PendingUpTo(rows, i)
      {
        if rows[i] == PENDING { todo := todo + [i]; }
      }
    }

    /** A pass that nothing interrupts: every pending row is published once and settled, in order. */
    method ProcessPendingSync(fate: nat -> Fate)
      modifies this
      ensures log == old(log) + PublishAll(Pending(old(rows)), fate)
      ensures |rows| == |old(rows)|
      ensures forall k :: 0 <= k < |rows| ==>
                rows[k] == if old(rows)[k] == PENDING then fate(k).Mark() else old(rows)[k]
    {
      var todo := QueryPending();
      PendingIsExact(rows, |rows|);
      for i := 0 to |todo|
        invariant log == old(log) + PublishAll(todo[..i], fate)
        invariant Settled(old(rows), rows, todo[..i], fate)
      {
        var k := todo[i];
        assert k in todo;
        PublishNext(todo, i, fate);
        SettledNext(old(rows), rows, todo, i, fate);
        log := log + Repeat(k, fate(k).Copies());
        rows := rows[k := fate(k).Mark()];
      }
      assert todo[..|todo|] == todo;
    }
  }
}

/** The relays and the store's consumers together: what is handled of four broker logs with repetitions, read in
    any interleaving with each other and with the store tasks of the sagas. */
module Delivery {
  import opened Common
  import St = Store
  import R = Relay
  import SW = SagaWorkers

  /** What reaches the store service: a message, which is some copy of one outbox row of one topic, with the
      upstream services at that moment and the fate of its handling; or the call of a store task. */
  datatype Input =
    | Message(topic: St.Kind, row: nat, src: St.Sources, fate: St.Fate)
    | CreateEntry(offering: Id, from: St.Sources, net: Net, halfway: bool)
    | DeleteEntry(offering: Id, net: Net, halfway: bool)

  /** The event body of each row of each topic. */
  type Bodies = (St.Kind, nat) -> St.Body

  ghost predicate DistinctIds(body: Bodies) {
    && (forall t, k :: body(t, k).eventId.Some?)
    && forall t, k, u, m :: body(t, k).eventId == body(u, m).eventId ==> t == u && k == m
  }

  ghost function Step(st: St.State, a: Input, body: Bodies): St.State {
    match a
    case Message(t, k, src, fate) => St.Consume(st, src, body(t, k), fate)
    case CreateEntry(o, src, net, halfway) => SW.CreateHandler(st, src, o, net, halfway).0
    case DeleteEntry(o, net, halfway) => SW.DeleteHandler(st, o, net, halfway).0
  }

  ghost function Feed(st: St.State, ins: seq<Input>, body: Bodies): St.State {
    if ins == [] then st else Step(Feed(st, ins[..|ins| - 1], body), ins[|ins| - 1], body)
  }

  predicate IsCopy(a: Input, t: St.Kind, k: nat) { a.Message? && a.topic == t && a.row == k }

  // ---- which messages take effect ------------------------------------------------------------------

  /** A message that, if new, would be handled to the end and remembered. */
  ghost predicate Completes(b: St.Body, fate: St.Fate) {
    !St.Malformed(b) && !St.Raises(b, fate.stop)
  }

  ghost predicate DoneBefore(ins: seq<Input>, body: Bodies, t: St.Kind, k: nat) {
    exists j :: 0 <= j < |ins| && IsCopy(ins[j], t, k) && Completes(body(t, k), ins[j].fate)
  }

  lemma DoneOneMore(ins: seq<Input>, body: Bodies, t: St.Kind, k: nat)
    requires ins != []
    ensures var front, a := ins[..|ins| - 1], ins[|ins| - 1];
            DoneBefore(ins, body, t, k) <==>
            DoneBefore(front, body, t, k) || (IsCopy(a, t, k) && Completes(body(t, k), a.fate))
  {
    var front := ins[..|ins| - 1];
    if DoneBefore(front, body, t, k) {
      var j :| 0 <= j < |front| && IsCopy(front[j], t, k) && Completes(body(t, k), front[j].fate);
      assert ins[j] == front[j];
    }
    if DoneBefore(ins, body, t, k) {
      var j :| 0 <= j < |ins| && IsCopy(ins[j], t, k) && Completes(body(t, k), ins[j].fate);
      assert j < |front| ==> front[j] == ins[j];
    }
  }

  /** The consumers, which share one record, remember exactly the rows of which some copy was handled to the end. */
  lemma {:induction false} RememberedRows(st: St.State, ins: seq<Input>, body: Bodies, t: St.Kind, k: nat)
    requires DistinctIds(body)
    ensures body(t, k).eventId.value in Feed(st, ins, body).processed <==>
            body(t, k).eventId.value in st.processed || DoneBefore(ins, body, t, k)
  {
    if ins != [] {
      RememberedRows(st, ins[..|ins| - 1], body, t, k);
      DoneOneMore(ins, body, t, k);
    }
  }

  /** None of the messages was handled before the first input. */
  ghost predicate AllNew(st: St.State, ins: seq<Input>, body: Bodies) {
    forall i :: 0 <= i < |ins| && ins[i].Message? ==>
      var id := body(ins[i].topic, ins[i].row).eventId; id.Some? && id.value !in st.processed
  }

  /** Whatever stops the handlers: message i is handled if and only if its handler gets to start and no earlier
      copy was handled to the end. */
  lemma HandledUnlessDone(st: St.State, ins: seq<Input>, body: Bodies, i: nat)
    requires DistinctIds(body) && AllNew(st, ins, body) && i < |ins| && ins[i].Message?
    ensures var b := body(ins[i].topic, ins[i].row);
            St.Starts(Feed(st, ins[..i], body), b, ins[i].fate) <==>
            !St.Malformed(b) && ins[i].fate.stop != St.AtStart && !DoneBefore(ins[..i], body, ins[i].topic, ins[i].row)
  {
    RememberedRows(st, ins[..i], body, ins[i].topic, ins[i].row);
  }

  // ---- without exceptions: each event once and in order ------------------------------------------------

  ghost predicate NothingStops(ins: seq<Input>) {
    forall i :: 0 <= i < |ins| && ins[i].Message? ==> ins[i].fate.stop == St.Through
  }

  predicate Repeats(front: seq<Input>, a: Input) {
    a.Message? && exists j :: 0 <= j < |front| && IsCopy(front[j], a.topic, a.row)
  }

  /** The inputs without repeated messages. */
  function FirstCopies(ins: seq<Input>): seq<Input> {
    if ins == [] then []
    else
      var front, a := ins[..|ins| - 1], ins[|ins| - 1];
      FirstCopies(front) + if Repeats(front, a) then [] else [a]
  }

  /** Without exceptions the first copy of a row is handled to the end. */
  lemma RepeatedIsDone(front: seq<Input>, a: Input, body: Bodies)
    requires NothingStops(front) && Repeats(front, a) && !St.Malformed(body(a.topic, a.row))
    ensures DoneBefore(front, body, a.topic, a.row)
  {
    var j :| 0 <= j < |front| && IsCopy(front[j], a.topic, a.row);
    assert Completes(body(a.topic, a.row), front[j].fate);
  }

  lemma StartsIfFirst(st: St.State, ins: seq<Input>, body: Bodies, i: nat)
    requires DistinctIds(body) && AllNew(st, ins, body) && NothingStops(ins) && i < |ins| && ins[i].Message?
    ensures var b := body(ins[i].topic, ins[i].row);
            St.Starts(Feed(st, ins[..i], body), b, ins[i].fate) <==> !St.Malformed(b) && !Repeats(ins[..i], ins[i])
  {
    var front, a := ins[..i], ins[i];
    HandledUnlessDone(st, ins, body, i);
    assert NothingStops(front);
    if Repeats(front, a) && !St.Malformed(body(a.topic, a.row)) { RepeatedIsDone(front, a, body); }
    if DoneBefore(front, body, a.topic, a.row) {
      var j :| 0 <= j < |front| && IsCopy(front[j], a.topic, a.row) && Completes(body(a.topic, a.row), front[j].fate);
    }
  }

  lemma FedNext(st: St.State, ins: seq<Input>, a: Input, body: Bodies)
    ensures Feed(st, ins + [a], body) == Step(Feed(st, ins, body), a, body)
  {
    assert (ins + [a])[..|ins|] == ins;
  }

  /** Reading everything is reading each message once. */
  lemma {:induction false} FirstCopiesSuffice(st: St.State, ins: seq<Input>, body: Bodies)
    requires DistinctIds(body) && AllNew(st, ins, body) && NothingStops(ins)
    ensures Feed(st, ins, body) == Feed(st, FirstCopies(ins), body)
  {
    if ins != [] {
      var front, a := ins[..|ins| - 1], ins[|ins| - 1];
      FirstCopiesSuffice(st, front, body);
      if Repeats(front, a) {
        StartsIfFirst(st, ins, body, |ins| - 1);
        assert FirstCopies(ins) == FirstCopies(front);
      } else {
        FedNext(st, FirstCopies(front), a, body);
      }
    }
  }

  // ---- each topic by itself ----------------------------------------------------------------------------

  /** The row numbers of one topic's messages. */
  function RowsOf(ins: seq<Input>, t: St.Kind): seq<nat> {
    if ins == [] then []
    else
      var a := ins[|ins| - 1];
      RowsOf(ins[..|ins| - 1], t) + if a.Message? && a.topic == t then [a.row] else []
  }

  lemma {:induction false} RowsAreCopies(ins: seq<Input>, t: St.Kind, k: nat)
    ensures k in RowsOf(ins, t) <==> exists j :: 0 <= j < |ins| && IsCopy(ins[j], t, k)
  {
    if ins != [] {
      var front := ins[..|ins| - 1];
      RowsAreCopies(front, t, k);
      if exists j :: 0 <= j < |front| && IsCopy(front[j], t, k) {
        var j :| 0 <= j < |front| && IsCopy(front[j], t, k);
        assert IsCopy(ins[j], t, k);
      }
      if exists j :: 0 <= j < |ins| && IsCopy(ins[j], t, k) {
        var j :| 0 <= j < |ins| && IsCopy(ins[j], t, k);
        assert j < |front| ==> IsCopy(front[j], t, k);
      }
    }
  }

  lemma RowsOfNext(ins: seq<Input>, a: Input, t: St.Kind)
    ensures RowsOf(ins + [a], t) == RowsOf(ins, t) + if a.Message? && a.topic == t then [a.row] else []
  {
    assert (ins + [a])[..|ins|] == ins;
  }

  lemma DedupNext(log: seq<nat>, k: nat)
    ensures R.Dedup(log + [k]) == R.Dedup(log) + if k in log then [] else [k]
  {
    assert (log + [k])[..|log|] == log;
  }

  lemma {:induction false} FirstCopiesAreDedup(ins: seq<Input>, t: St.Kind)
    ensures RowsOf(FirstCopies(ins), t) == R.Dedup(RowsOf(ins, t))
  {
    if ins != [] {
      var front, a := ins[..|ins| - 1], ins[|ins| - 1];
      FirstCopiesAreDedup(front, t);
      RowsOfNext(FirstCopies(front), a, t);
      if a.Message? && a.topic == t {
        RowsAreCopies(front, t, a.row);
        DedupNext(RowsOf(front, t), a.row);
      } else {
        assert RowsOf(ins, t) == RowsOf(front, t);
      }
      if Repeats(front, a) { assert FirstCopies(ins) == FirstCopies(front); }
    }
  }

  /** The messages of topic t are a part of its relay's broker log, read from the start. */
  ghost predicate ReadsLog(ins: seq<Input>, t: St.Kind, cfg: R.Config, acts: seq<R.Action>) {
    RowsOf(ins, t) <= R.Run(cfg, acts).log
  }

  lemma TopicIsPrefix(ins: seq<Input>, t: St.Kind, cfg: R.Config, acts: seq<R.Action>)
    requires R.NeverOvertakes(cfg, acts) && ReadsLog(ins, t, cfg, acts)
    ensures var n := |RowsOf(FirstCopies(ins), t)|;
            n <= |R.Run(cfg, acts).rows| && RowsOf(FirstCopies(ins), t) == R.UpTo(n)
  {
    FirstCopiesAreDedup(ins, t);
    assert R.Run(cfg, acts).log[..|RowsOf(ins, t)|] == RowsOf(ins, t);
    R.DedupingConsumerHandlesPrefix(cfg, acts, |RowsOf(ins, t)|);
  }

  /** However the relays of the four services pass, overlap, crash or have publishes rejected, as long as none
      overtakes an older row; however far each consumer has read, in whatever interleaving with the others and
      with the store tasks, the upstream services and the fates of the syncs changing at will, as long as no
      exception stops a handler: a message is handled exactly if it is the first copy, the state of the store is
      that of the first copies alone, and those are, topic by topic, the first rows of the outbox, each once and
      in order. */
  lemma StoreHandlesOutboxPrefix(cfg: St.Kind -> R.Config, acts: St.Kind -> seq<R.Action>, st: St.State,
                                 ins: seq<Input>, body: Bodies)
    requires forall t: St.Kind :: R.NeverOvertakes(cfg(t), acts(t)) && ReadsLog(ins, t, cfg(t), acts(t))
    requires DistinctIds(body) && AllNew(st, ins, body) && NothingStops(ins)
    ensures Feed(st, ins, body) == Feed(st, FirstCopies(ins), body)
    ensures forall t: St.Kind ::
              var n := |RowsOf(FirstCopies(ins), t)|;
              n <= |R.Run(cfg(t), acts(t)).rows| && RowsOf(FirstCopies(ins), t) == R.UpTo(n)
    ensures forall i :: 0 <= i < |ins| && ins[i].Message? ==>
              var b := body(ins[i].topic, ins[i].row);
              St.Starts(Feed(st, ins[..i], body), b, ins[i].fate) <==> !St.Malformed(b) && !Repeats(ins[..i], ins[i])
  {
    FirstCopiesSuffice(st, ins, body);
    forall t: St.Kind
      ensures var n := |RowsOf(FirstCopies(ins), t)|;
              n <= |R.Run(cfg(t), acts(t)).rows| && RowsOf(FirstCopies(ins), t) == R.UpTo(n)
    {
      TopicIsPrefix(ins, t, cfg(t), acts(t));
    }
    forall i | 0 <= i < |ins| && ins[i].Message?
      ensures var b := body(ins[i].topic, ins[i].row);
              St.Starts(Feed(st, ins[..i], body), b, ins[i].fate) <==> !St.Malformed(b) && !Repeats(ins[..i], ins[i])
    {
      StartsIfFirst(st, ins, body, i);
    }
  }
}

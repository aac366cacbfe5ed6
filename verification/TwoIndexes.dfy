/** The document store and the search index over whole runs: exactly when they hold the same ids. */
module TwoIndexes {
  import opened Common
  import opened SagaGraph
  import O = Offerings
  import St = Store
  import SagaWorkers

  /** Everything that writes the two stores: an event, and the two store tasks of the saga. What the upstream
      services answer may differ from step to step. */
  datatype Step =
    | Hear(src: St.Sources, body: St.Body, fate: St.Fate)
    | CreateEntry(from: St.Sources, id: Id, net: Net, halfway: bool)
    | DeleteEntry(id: Id, net: Net, halfway: bool)

  const EMPTY := St.State(map[], map[], {})

  ghost function Next(st: St.State, step: Step): St.State {
    match step
    case Hear(src, b, fate) => St.Consume(st, src, b, fate)
    case CreateEntry(src, o, net, halfway) => SagaWorkers.CreateHandler(st, src, o, net, halfway).0
    case DeleteEntry(o, net, halfway) => SagaWorkers.DeleteHandler(st, o, net, halfway).0
  }

  ghost function Run(steps: seq<Step>): St.State {
    if steps == [] then EMPTY else Next(Run(steps[..|steps| - 1]), steps[|steps| - 1])
  }

  /** The ids a step adds to the document store alone, or removes from it alone: those written by a sync that
      stopped halfway and not indexed yet, and those deleted by a retirement that stopped halfway and indexed. */
  ghost function Torn(st: St.State, step: Step): set<Id> {
    match step
    case Hear(src, b, fate) => (St.HalfWritten(st, src, b, fate) - st.es.Keys) + St.HalfRetired(st, b, fate)
    case CreateEntry(src, o, net, halfway) =>
      if halfway && !net.Ran() then {o} * src.offerings.Keys - st.es.Keys else {}
    case DeleteEntry(o, net, halfway) => if halfway && !net.Ran() then {o} * st.es.Keys else {}
  }

  lemma HearTears(st: St.State, src: St.Sources, b: St.Body, fate: St.Fate)
    requires st.mongo.Keys == st.es.Keys
    ensures var st' := St.Consume(st, src, b, fate);
            st'.mongo.Keys == st'.es.Keys
            <==> Torn(st, Hear(src, b, fate)) == {}
  {
    var st', torn := St.Consume(st, src, b, fate), Torn(st, Hear(src, b, fate));
    if St.Starts(st, b, fate) && b.payloadId.Some? {
      var t, x := b.eventType.value, b.payloadId.value;
      var os := St.Targets(st.mongo, t, x) * fate.reached;
      if t == St.OfferingRetired {
        assert x in st.es.Keys <==> st.es.Keys - {x} != st.es.Keys;
      } else if !(fate.stop == St.AtFirst && St.Refreshes(t).Some?) {
        assert st'.mongo.Keys == st.mongo.Keys + os * src.offerings.Keys;
        assert st'.es.Keys == st.es.Keys + os * fate.indexed * src.offerings.Keys;
        assert torn == os * src.offerings.Keys - fate.indexed - st.es.Keys;
        assert forall o :: o in torn ==> o in st'.mongo.Keys && o !in st'.es.Keys;
        assert forall o :: o in st'.mongo.Keys && o !in st'.es.Keys ==> o in torn;
      }
    }
  }

  /** From equal ids, a step leads to equal ids if and only if it tears none apart. */
  lemma SameIdsUnlessTorn(st: St.State, step: Step)
    requires st.mongo.Keys == st.es.Keys
    ensures Next(st, step).mongo.Keys == Next(st, step).es.Keys <==> Torn(st, step) == {}
  {
    match step
    case Hear(src, b, fate) => HearTears(st, src, b, fate);
    case CreateEntry(src, o, net, halfway) =>
      assert o in Torn(st, step) <==> halfway && !net.Ran() && o in src.offerings && o !in st.es;
      assert Next(st, step).mongo.Keys == st.mongo.Keys + if (net.Ran() || halfway) && o in src.offerings then {o}
        else {};
      assert Next(st, step).es.Keys == st.es.Keys + if net.Ran() && o in src.offerings then {o} else {};
    case DeleteEntry(o, net, halfway) =>
      assert o in Torn(st, step) <==> halfway && !net.Ran() && o in st.es;
  }

  ghost predicate AlwaysSameIds(steps: seq<Step>) {
    Run(steps).mongo.Keys == Run(steps).es.Keys && (steps == [] || AlwaysSameIds(steps[..|steps| - 1]))
  }

  ghost predicate NeverTorn(steps: seq<Step>) {
    steps == [] || (NeverTorn(steps[..|steps| - 1]) && Torn(Run(steps[..|steps| - 1]), steps[|steps| - 1]) == {})
  }

  /** The two stores always hold the same ids if and only if no write stops halfway on an id that is not
      indexed, and no deletion stops halfway on one that is. */
  lemma {:induction false} SameIdsIsNeverTorn(steps: seq<Step>)
    ensures AlwaysSameIds(steps) <==> NeverTorn(steps)
  {
    if steps != [] {
      var front := steps[..|steps| - 1];
      SameIdsIsNeverTorn(front);
      if NeverTorn(front) { SameIdsUnlessTorn(Run(front), steps[|steps| - 1]); }
    }
  }

  /** One sync that stops between its two writes, answered with a success status, is enough. */
  lemma HalfSyncTearsApart() returns (steps: seq<Step>)
    ensures Run(steps).mongo.Keys == {4} && Run(steps).es == map[]
    ensures |steps| == 1 && steps[0].CreateEntry?
            && SagaWorkers.CreateHandler(EMPTY, steps[0].from, 4, steps[0].net, true).1 == Completed
  {
    var plan := O.Offering(O.OfferingIn("plan", None, [2], [3], ["web"]), O.PUBLISHING, None, None);
    var step := CreateEntry(St.Sources(map[4 := plan], map[], map[], map[]), 4, Hollow, true);
    steps := [step];
    assert steps[..0] == [];
  }
}

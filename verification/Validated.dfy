/** What a run has checked: no saga gets past Validate Specifications unless all its specifications were there, and
    no specification or offering refers to something that never was. */
module Validated {
  import opened Common
  import opened SagaGraph
  import opened WorldModel
  import O = Offerings
  import C = Characteristics
  import CharCache
  import Agreement
  import Coherence
  import Ownership
  import Visibility

  /** Process p is at Validate Specifications and every specification of its list exists. */
  ghost predicate AllThere(w: World, p: Id) {
    p in w.procs && w.procs[p].token == At(ValidateSpecs) && forall s :: s in w.procs[p].specIds ==> s in w.specs.table
  }

  /** Reached by completing Validate Specifications alone. */
  predicate PastValidation(t: Token) {
    match t
    case At(n) => n == CreateStoreEntry || n == ConfirmPublication || n == DeleteStoreEntry || n == Succeeded
    case Incident(n) => n == CreateStoreEntry || n == ConfirmPublication || n == DeleteStoreEntry
    case _ => false
  }

  /** The task completes exactly when its call is delivered and every specification exists; it stops at an incident
      exactly when the call raises, and is compensated otherwise. */
  lemma ValidatesExactly(cfg: Config, w: World, p: Id, net: Net, now: int)
    requires p in w.procs && w.procs[p].token == At(ValidateSpecs) && Allowed(cfg, w.procs[p], net)
    ensures var w' := ExecTask(cfg, w, p, net, now);
            && w' == Move(w, p, w'.procs[p].token)
            && (w'.procs[p].token == At(CreateStoreEntry) <==> net == Delivered && AllThere(w, p))
            && (w'.procs[p].token == Incident(ValidateSpecs) <==> net == Dropped || net == ReplyLost)
            && (w'.procs[p].token == At(CreateStoreEntry) || w'.procs[p].token == Incident(ValidateSpecs)
                || w'.procs[p].token == At(UnlockPrices))
  {
  }

  /** No other task leads past it. */
  lemma OthersStayBefore(cfg: Config, w: World, p: Id, net: Net, now: int)
    requires p in w.procs && !PastValidation(w.procs[p].token) && w.procs[p].token != At(ValidateSpecs)
    ensures var w' := ExecTask(cfg, w, p, net, now); p in w'.procs && !PastValidation(w'.procs[p].token)
  {
    match w.procs[p].token
    case At(n) => Agreement.QueuedFollows(cfg, w, p, n, net, now);
    case RollingBack(n, j) => RollbackStaysBefore(cfg, w, p, n, j, net);
    case _ =>
  }

  lemma RollbackStaysBefore(cfg: Config, w: World, p: Id, n: nat, j: nat, net: Net)
    requires p in w.procs
    ensures !PastValidation(ExecRollback(cfg, w, p, n, j, net).procs[p].token)
  {
  }

  lemma TaskKeepsLists(cfg: Config, w: World, q: Id, net: Net, now: int)
    requires q in w.procs
    ensures var w' := ExecTask(cfg, w, q, net, now);
            && q in w'.procs && w'.procs == w.procs[q := w'.procs[q]] && w'.procs[q].specIds == w.procs[q].specIds
  {
    match w.procs[q].token
    case At(n) => Agreement.QueuedFollows(cfg, w, q, n, net, now);
    case _ =>
  }

  /** Only a delivered call that finds every specification takes a saga past the task. */
  lemma PassedByValidating(cfg: Config, w: World, a: Action, p: Id)
    requires w.procs.Keys <= w.used
    requires p in Exec(cfg, w, a).procs && PastValidation(Exec(cfg, w, a).procs[p].token)
    ensures p in w.procs && Exec(cfg, w, a).procs[p].specIds == w.procs[p].specIds
    ensures !PastValidation(w.procs[p].token) ==> a.Task? && a.proc == p && a.net == Delivered && AllThere(w, p)
  {
    if a.Task? && a.proc in w.procs {
      TaskKeepsLists(cfg, w, a.proc, a.net, a.now);
      if a.proc == p && !PastValidation(w.procs[p].token) {
        if w.procs[p].token != At(ValidateSpecs) {
          OthersStayBefore(cfg, w, p, a.net, a.now);
        } else if Allowed(cfg, w.procs[p], a.net) {
          ValidatesExactly(cfg, w, p, a.net, a.now);
        }
      }
    } else if !a.Task? {
      OthersPassNobody(cfg, w, a, p);
    }
  }

  lemma OthersPassNobody(cfg: Config, w: World, a: Action, p: Id)
    requires !a.Task? && w.procs.Keys <= w.used
    ensures var w' := Exec(cfg, w, a);
            p in w'.procs ==> if p in w.procs then w'.procs[p] == w.procs[p] else !PastValidation(w'.procs[p].token)
  {
  }

  /** In every run, a saga past Validate Specifications was once at that task with all its specifications there. */
  lemma {:induction false} WasValidated(cfg: Config, acts: seq<Action>, p: Id) returns (k: nat)
    requires p in Run(cfg, acts).procs && PastValidation(Run(cfg, acts).procs[p].token)
    ensures k < |acts| && AllThere(Run(cfg, acts[..k]), p)
    ensures Run(cfg, acts[..k]).procs[p].specIds == Run(cfg, acts).procs[p].specIds
  {
    assert acts != [];
    var front := acts[..|acts| - 1];
    var w := Run(cfg, front);
    Ownership.RunFits(cfg, front);
    PassedByValidating(cfg, w, acts[|acts| - 1], p);
    if PastValidation(w.procs[p].token) {
      k := WasValidated(cfg, front, p);
      assert front[..k] == acts[..k];
    } else {
      k := |front|;
    }
  }

  /** No offering is published unless, at one moment of the run, all the specifications it lists existed. */
  lemma PublishedWasValidated(cfg: Config, acts: seq<Action>, o: Id) returns (k: nat)
    requires o in Run(cfg, acts).offerings.table && O.Live(Run(cfg, acts).offerings.table[o])
    ensures k < |acts|
    ensures forall s :: s in Run(cfg, acts).offerings.table[o].content.specIds ==> s in Run(cfg, acts[..k]).specs.table
  {
    var w := Run(cfg, acts);
    Agreement.RunKeepsInv(cfg, acts);
    var p :| Agreement.ConfirmedBy(w, o, p);
    assert Agreement.Agrees(w, p);
    k := WasValidated(cfg, acts, p);
  }

  // ---- the characteristics behind the specifications ------------------------------------------------

  /** The characteristic events tell the names in the table. */
  lemma {:induction false} EventsTellNames(cfg: Config, acts: seq<Action>)
    ensures var db := Run(cfg, acts).chars; CharCache.ApplyAll(map[], db.outbox) == CharCache.Names(db.table)
    ensures Run(cfg, acts).cacheAt <= |Run(cfg, acts).chars.outbox|
  {
    if acts != [] {
      var w, a := Run(cfg, acts[..|acts| - 1]), acts[|acts| - 1];
      EventsTellNames(cfg, acts[..|acts| - 1]);
      CharsMove(cfg, w, a);
      if a.CharAdmin? { CharCache.LastEventIsApplied(w.chars, a.charCall); }
    }
  }

  lemma CharsMove(cfg: Config, w: World, a: Action)
    ensures var w' := Exec(cfg, w, a);
            && w.chars.outbox <= w'.chars.outbox && |w'.chars.outbox| <= |w.chars.outbox| + 1
            && (w'.chars == w.chars || (a.CharAdmin? && w'.chars == C.Serve(w.chars, a.charCall).0))
            && (w.cacheAt <= |w.chars.outbox| ==> w'.cacheAt <= |w'.chars.outbox|)
            && (w'.chars.outbox == w.chars.outbox || w'.cacheAt == w.cacheAt)
  {
    if a.Task? && a.proc in w.procs { TaskLeavesChars(cfg, w, a.proc, a.net, a.now); }
  }

  lemma TaskLeavesChars(cfg: Config, w: World, p: Id, net: Net, now: int)
    requires p in w.procs
    ensures var w' := ExecTask(cfg, w, p, net, now);
            w'.chars == w.chars && w'.specs == w.specs && w'.cacheAt == w.cacheAt
  {
    match w.procs[p].token
    case At(n) => Coherence.QueuedKeepsSources(cfg, w, p, n, net, now);
    case _ =>
  }

  /** The first j characteristic events give the names that were in the table at some moment of the run. */
  lemma {:induction false} NamesOnce(cfg: Config, acts: seq<Action>, j: nat) returns (k: nat)
    requires j <= |Run(cfg, acts).chars.outbox|
    ensures k <= |acts|
    ensures CharCache.ApplyAll(map[], Run(cfg, acts).chars.outbox[..j])
         == CharCache.Names(Run(cfg, acts[..k]).chars.table)
  {
    var w' := Run(cfg, acts);
    k := |acts|;
    assert acts[..k] == acts;
    if j == |w'.chars.outbox| {
      EventsTellNames(cfg, acts);
      assert w'.chars.outbox[..j] == w'.chars.outbox;
    } else {
      assert acts != [];
      var front := acts[..|acts| - 1];
      CharsMove(cfg, Run(cfg, front), acts[|acts| - 1]);
      k := NamesOnce(cfg, front, j);
      assert front[..k] == acts[..k] && w'.chars.outbox[..j] == Run(cfg, front).chars.outbox[..j];
    }
  }

  /** In every run the specification service's cache holds the names that the characteristic table had at some
      moment so far, and the current ones once every event has been applied. */
  lemma CacheIsPast(cfg: Config, acts: seq<Action>) returns (k: nat)
    ensures k <= |acts| && CacheNow(Run(cfg, acts)) == CharCache.Names(Run(cfg, acts[..k]).chars.table)
    ensures var w := Run(cfg, acts);
            w.cacheAt == |w.chars.outbox| ==> CacheNow(w) == CharCache.Names(w.chars.table)
  {
    var w := Run(cfg, acts);
    EventsTellNames(cfg, acts);
    k := NamesOnce(cfg, acts, w.cacheAt);
    if w.cacheAt == |w.chars.outbox| { assert w.chars.outbox[..w.cacheAt] == w.chars.outbox; }
  }

  /** A specification that is new or changed after a step names characteristics of the cache only. */
  lemma SpecsAreJudged(cfg: Config, w: World, a: Action, s: Id)
    requires s in Exec(cfg, w, a).specs.table
    ensures var t, t' := w.specs.table, Exec(cfg, w, a).specs.table;
            || (s in t && t'[s] == t[s])
            || (t'[s].charIds != [] && forall c :: c in t'[s].charIds ==> c in CacheNow(w))
  {
    if a.Task? && a.proc in w.procs { TaskLeavesChars(cfg, w, a.proc, a.net, a.now); }
  }

  /** Every characteristic that a specification names existed at some moment of the run. */
  lemma {:induction false} NamedCharacteristicExisted(cfg: Config, acts: seq<Action>, s: Id, c: Id) returns (k: nat)
    requires s in Run(cfg, acts).specs.table && c in Run(cfg, acts).specs.table[s].charIds
    ensures k <= |acts| && c in Run(cfg, acts[..k]).chars.table
  {
    assert acts != [];
    var front := acts[..|acts| - 1];
    var w := Run(cfg, front);
    SpecsAreJudged(cfg, w, acts[|acts| - 1], s);
    if s in w.specs.table && Run(cfg, acts).specs.table[s] == w.specs.table[s] {
      k := NamedCharacteristicExisted(cfg, front, s, c);
    } else {
      k := CacheIsPast(cfg, front);
      assert c in CharCache.Names(Run(cfg, front[..k]).chars.table);
    }
    assert front[..k] == acts[..k];
  }

  // ---- what an offering refers to --------------------------------------------------------------------

  ghost predicate RefsThere(w: World, content: O.OfferingIn) {
    && (forall s :: s in content.specIds ==> s in w.specs.table)
    && (forall p :: p in content.priceIds ==> p in w.prices.table)
  }

  lemma TaskKeepsContent(cfg: Config, w: World, p: Id, net: Net, now: int, o: Id)
    requires p in w.procs && o in ExecTask(cfg, w, p, net, now).offerings.table
    ensures var t, t' := w.offerings.table, ExecTask(cfg, w, p, net, now).offerings.table;
            o in t && t'[o].content == t[o].content
  {
    match w.procs[p].token
    case At(n) => Visibility.QueuedServes(cfg, w, p, n, net, now);
    case _ =>
  }

  /** The content of an offering after a step is that before it, or refers to existing rows only. */
  lemma OfferingsAreJudged(cfg: Config, w: World, a: Action, o: Id)
    requires o in Exec(cfg, w, a).offerings.table
    ensures var t, t' := w.offerings.table, Exec(cfg, w, a).offerings.table;
            (o in t && t'[o].content == t[o].content) || RefsThere(w, t'[o].content)
  {
    if a.Task? && a.proc in w.procs { TaskKeepsContent(cfg, w, a.proc, a.net, a.now, o); }
  }

  /** All specifications and prices an offering lists existed together at one moment of the run. */
  lemma {:induction false} ReferencesExisted(cfg: Config, acts: seq<Action>, o: Id) returns (k: nat)
    requires o in Run(cfg, acts).offerings.table
    ensures k <= |acts| && RefsThere(Run(cfg, acts[..k]), Run(cfg, acts).offerings.table[o].content)
  {
    assert acts != [];
    var front := acts[..|acts| - 1];
    var t, t' := Run(cfg, front).offerings.table, Run(cfg, acts).offerings.table;
    OfferingsAreJudged(cfg, Run(cfg, front), acts[|acts| - 1], o);
    if o in t && t'[o].content == t[o].content {
      k := ReferencesExisted(cfg, front, o);
    } else {
      k := |front|;
    }
    assert front[..k] == acts[..k];
  }
}

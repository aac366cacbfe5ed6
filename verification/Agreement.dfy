/** The saga and its offering agree: one attached process per offering, in step with its status. */
module Agreement {
  import opened Common
  import opened SagaGraph
  import opened WorldModel
  import O = Offerings
  import S = Specifications
  import St = Store

  /** The instance still has a say over its offering: it has not ended in failure and did not get
      stuck in its very last task. */
  predicate Attached(t: Token) { t != At(Failed) && t != Incident(RevertToDraft) }

  /** The instance still has a task to run. */
  predicate IsLive(t: Token) { !t.Incident? && t != At(Failed) && t != At(Succeeded) }

  predicate StatusFits(t: Token, s: O.Status) {
    match t
    case At(n) => if n == Succeeded then s == O.PUBLISHED || s == O.RETIRED else s == O.PUBLISHING
    case Incident(n) => if n == ConfirmPublication then s != O.DRAFT else s == O.PUBLISHING
    case _ => s == O.PUBLISHING
  }

  ghost predicate Agrees(w: World, p: Id)
    requires p in w.procs
  {
    var proc := w.procs[p];
    && proc.offering in w.offerings.table
    && var off := w.offerings.table[proc.offering];
       && off.content.specIds == proc.specIds && off.content.priceIds == proc.priceIds
       && StatusFits(proc.token, off.status)
  }

  ghost predicate ConfirmedBy(w: World, o: Id, p: Id) {
    && p in w.procs && w.procs[p].offering == o
    && (w.procs[p].token == At(Succeeded) || w.procs[p].token == Incident(ConfirmPublication))
  }

  ghost predicate Inv(w: World) {
    && w.procs.Keys <= w.used
    && (forall p :: p in w.procs && Attached(w.procs[p].token) ==> Agrees(w, p))
    && (forall p, q ::
          (p in w.procs && q in w.procs && Attached(w.procs[p].token) && Attached(w.procs[q].token)
           && w.procs[p].offering == w.procs[q].offering) ==> p == q)
    && (forall o :: o in w.offerings.table && O.Live(w.offerings.table[o]) ==> exists p :: ConfirmedBy(w, o, p))
  }

  /** Nothing but the status of offerings outside the saga's reach has changed. */
  ghost predicate OfferingsAdvance(w: World, w': World) {
    && w'.procs == w.procs && w.used <= w'.used
    && (forall o :: o in w.offerings.table && w.offerings.table[o].status != O.DRAFT ==>
          && o in w'.offerings.table
          && w'.offerings.table[o].content == w.offerings.table[o].content
          && (w'.offerings.table[o].status == w.offerings.table[o].status
              || (w.offerings.table[o].status == O.PUBLISHED && w'.offerings.table[o].status == O.RETIRED)))
    && (forall o :: o in w'.offerings.table && O.Live(w'.offerings.table[o]) ==>
          o in w.offerings.table && O.Live(w.offerings.table[o]))
  }

  lemma AdvanceKeepsInv(w: World, w': World)
    requires Inv(w) && OfferingsAdvance(w, w')
    ensures Inv(w')
  {
    forall p | p in w'.procs && Attached(w'.procs[p].token) ensures Agrees(w', p) {
      assert Agrees(w, p);
    }
    forall o | o in w'.offerings.table && O.Live(w'.offerings.table[o]) ensures exists p :: ConfirmedBy(w', o, p) {
      var p :| ConfirmedBy(w, o, p);
      assert ConfirmedBy(w', o, p);
    }
  }

  lemma PublishKeepsInv(w: World, o: Id, p: Id, started: bool)
    requires Inv(w)
    ensures Inv(ExecPublish(w, o, p, started))
  {
    var w' := ExecPublish(w, o, p, started);
    if w' != w {
      assert w.offerings.table[o].status == O.DRAFT
        && w'.offerings.table == w.offerings.table[o := w.offerings.table[o].(status := O.PUBLISHING)];
      forall q | q in w.procs && Attached(w.procs[q].token) ensures Agrees(w', q) && w.procs[q].offering != o {
        assert Agrees(w, q);
      }
      forall o' | o' in w'.offerings.table && O.Live(w'.offerings.table[o'])
        ensures exists q :: ConfirmedBy(w', o', q) {
        var q :| ConfirmedBy(w, o', q);
        assert ConfirmedBy(w', o', q);
      }
    }
  }

  /** What a step of process p changes, as far as agreement is concerned. */
  ghost predicate ProcAdvances(w: World, w': World, p: Id) {
    && p in w.procs && w'.procs.Keys == w.procs.Keys && w'.used == w.used
    && (forall q :: q in w.procs && q != p ==> w'.procs[q] == w.procs[q])
    && var proc, proc' := w.procs[p], w'.procs[p];
       && proc'.offering == proc.offering && proc'.specIds == proc.specIds && proc'.priceIds == proc.priceIds
       && (Attached(proc'.token) ==> Attached(proc.token))
       && (w'.offerings == w.offerings || TouchesOwnOffering(w, w', p))
       && (Attached(proc'.token) && w'.offerings == w.offerings && w'.procs != w.procs ==>
             forall s :: StatusFits(proc.token, s) ==> StatusFits(proc'.token, s))
       && (proc.token == At(Succeeded) || proc.token == Incident(ConfirmPublication) ==> proc'.token == proc.token)
  }

  /** The two steps that write an offering: confirming and reverting it. */
  ghost predicate TouchesOwnOffering(w: World, w': World, p: Id)
    requires p in w.procs && p in w'.procs
  {
    var o, t, t' := w.procs[p].offering, w.procs[p].token, w'.procs[p].token;
    && o in w.offerings.table && w.offerings.table[o].status == O.PUBLISHING
    && w'.offerings.table.Keys == w.offerings.table.Keys
    && (forall x :: x in w.offerings.table && x != o ==> w'.offerings.table[x] == w.offerings.table[x])
    && w'.offerings.table[o].content == w.offerings.table[o].content
    && Attached(t)
    && match w'.offerings.table[o].status
       case DRAFT => !Attached(t')
       case PUBLISHED => t' == At(Succeeded) || t' == Incident(ConfirmPublication)
       case _ => false
  }

  lemma ProcAdvanceKeepsInv(w: World, w': World, p: Id)
    requires Inv(w) && ProcAdvances(w, w', p)
    ensures Inv(w')
  {
    forall q | q in w'.procs && Attached(w'.procs[q].token) ensures Agrees(w', q) {
      assert Agrees(w, q);
    }
    forall o | o in w'.offerings.table && O.Live(w'.offerings.table[o]) ensures exists q :: ConfirmedBy(w', o, q) {
      if o in w.offerings.table && O.Live(w.offerings.table[o]) {
        var q :| ConfirmedBy(w, o, q);
        assert ConfirmedBy(w', o, q);
      } else {
        assert ConfirmedBy(w', o, p);
      }
    }
  }

  /** A one-call task moves the token of p alone, and its effect lands if the call ran. */
  lemma SettleShape(cfg: Config, w: World, ran: World, p: Id, n: Node, replyOk: bool, net: Net)
    requires p in w.procs && ran.procs == w.procs
    ensures var w' := Settle(cfg, w, ran, p, n, replyOk, net);
            var t := match Report(n, replyOk, net)
                     case Completed => At(OnComplete(n))
                     case BpmnError => At(OnError(cfg.route, n))
                     case Raised => Incident(n);
            w' == (if net.Ran() then ran else w).(procs := w.procs[p := w.procs[p].(token := t)])
  {
  }

  /** Where one move of a queued task can lead. */
  predicate Follows(cfg: Config, n: Node, t: Token) {
    || t == At(n)
    || (n == LockPrices && t == Locking(0))
    || (n == UnlockPrices && t == Unlocking(0))
    || (n != LockPrices && n != UnlockPrices && !IsEnd(n)
        && (t == At(OnComplete(n)) || (Guarded(n) && t == At(OnError(cfg.route, n))) || t == Incident(n)))
  }

  lemma SettleFollows(cfg: Config, w: World, ran: World, p: Id, n: Node, replyOk: bool, net: Net)
    requires p in w.procs && ran.procs == w.procs && ran.used == w.used && ran.prices == w.prices
             && ran.worker == w.worker
    requires n != LockPrices && n != UnlockPrices && !IsEnd(n)
    ensures var w' := Settle(cfg, w, ran, p, n, replyOk, net);
            && p in w'.procs && w'.procs == w.procs[p := w.procs[p].(token := w'.procs[p].token)]
            && Follows(cfg, n, w'.procs[p].token)
            && w'.used == w.used && w'.prices == w.prices && w'.worker == w.worker
  {
  }

  /** One move of a queued task moves the token of its process along the graph, and touches no price. */
  lemma QueuedFollows(cfg: Config, w: World, p: Id, n: Node, net: Net, now: int)
    requires p in w.procs && w.procs[p].token == At(n)
    ensures var w' := ExecQueued(cfg, w, p, n, net, now);
            && p in w'.procs && w'.procs == w.procs[p := w.procs[p].(token := w'.procs[p].token)]
            && Follows(cfg, n, w'.procs[p].token) && w'.used == w.used && w'.prices == w.prices
  {
    var o := w.procs[p].offering;
    assert w.procs == w.procs[p := w.procs[p].(token := At(n))];
    match n
    case ValidateSpecs => SettleFollows(cfg, w, w, p, n, S.AllFound(w.specs.table, w.procs[p].specIds), net);
    case CreateStoreEntry =>
      SettleFollows(cfg, w, w.(docs := St.SyncAll(w.docs, Sources(w), {o}, true)), p, n, true, net);
    case ConfirmPublication =>
      var (db, reply) := O.Serve(w.offerings, O.Confirm(o, now));
      SettleFollows(cfg, w, w.(offerings := db), p, n, reply == O.Ok, net);
    case DeleteStoreEntry => SettleFollows(cfg, w, w.(docs := w.docs - {o}), p, n, true, net);
    case RevertToDraft => SettleFollows(cfg, w, w.(offerings := O.Serve(w.offerings, O.Fail(o)).0), p, n, true, net);
    case _ =>
  }

  lemma ReadOnlyTaskAdvances(cfg: Config, w: World, ran: World, p: Id, n: Node, replyOk: bool, net: Net)
    requires p in w.procs && ran.procs == w.procs && ran.used == w.used && ran.offerings == w.offerings
    requires w.procs[p].token == At(n) && (n == ValidateSpecs || n == CreateStoreEntry || n == DeleteStoreEntry)
    ensures ProcAdvances(w, Settle(cfg, w, ran, p, n, replyOk, net), p)
  {
    SettleShape(cfg, w, ran, p, n, replyOk, net);
  }

  lemma ConfirmAdvances(cfg: Config, w: World, p: Id, net: Net, now: int)
    requires Inv(w) && p in w.procs && w.procs[p].token == At(ConfirmPublication) && net != Hollow
    ensures ProcAdvances(w, ExecQueued(cfg, w, p, ConfirmPublication, net, now), p)
  {
    assert Agrees(w, p);
    var (db, reply) := O.Serve(w.offerings, O.Confirm(w.procs[p].offering, now));
    assert reply == O.Ok && db.table[w.procs[p].offering].status == O.PUBLISHED;
    SettleShape(cfg, w, w.(offerings := db), p, ConfirmPublication, true, net);
  }

  lemma RevertAdvances(cfg: Config, w: World, p: Id, net: Net, now: int)
    requires Inv(w) && p in w.procs && w.procs[p].token == At(RevertToDraft)
    ensures ProcAdvances(w, ExecQueued(cfg, w, p, RevertToDraft, net, now), p)
  {
    assert Agrees(w, p);
    var (db, reply) := O.Serve(w.offerings, O.Fail(w.procs[p].offering));
    assert reply == O.Ok;
    SettleShape(cfg, w, w.(offerings := db), p, RevertToDraft, true, net);
  }

  lemma QueuedAdvances(cfg: Config, w: World, p: Id, n: Node, net: Net, now: int)
    requires Inv(w) && p in w.procs && w.procs[p].token == At(n) && Allowed(cfg, w.procs[p], net)
    ensures ProcAdvances(w, ExecQueued(cfg, w, p, n, net, now), p)
  {
    match n
    case ConfirmPublication => ConfirmAdvances(cfg, w, p, net, now);
    case RevertToDraft => RevertAdvances(cfg, w, p, net, now);
    case ValidateSpecs =>
      ReadOnlyTaskAdvances(cfg, w, w, p, n, S.AllFound(w.specs.table, w.procs[p].specIds), net);
    case CreateStoreEntry =>
      var synced := w.(docs := St.SyncAll(w.docs, Sources(w), {w.procs[p].offering}, true));
      ReadOnlyTaskAdvances(cfg, w, synced, p, n, true, net);
    case DeleteStoreEntry =>
      ReadOnlyTaskAdvances(cfg, w, w.(docs := w.docs - {w.procs[p].offering}), p, n, true, net);
    case _ =>
  }

  lemma LockingAdvances(w: World, p: Id, i: nat, net: Net)
    requires p in w.procs && w.procs[p].token == Locking(i)
    ensures ProcAdvances(w, ExecLocking(w, p, i, net), p)
  {
  }

  lemma RollbackAdvances(cfg: Config, w: World, p: Id, n: nat, j: nat, net: Net)
    requires p in w.procs && w.procs[p].token == RollingBack(n, j)
    ensures ProcAdvances(w, ExecRollback(cfg, w, p, n, j, net), p)
  {
  }

  lemma UnlockingAdvances(w: World, p: Id, j: nat, net: Net)
    requires p in w.procs && w.procs[p].token == Unlocking(j)
    ensures ProcAdvances(w, ExecUnlocking(w, p, j, net), p)
  {
    var w' := ExecUnlocking(w, p, j, net);
    assert w'.offerings == w.offerings && w'.used == w.used;
  }

  lemma TaskAdvances(cfg: Config, w: World, p: Id, net: Net, now: int)
    requires Inv(w) && p in w.procs
    ensures ProcAdvances(w, ExecTask(cfg, w, p, net, now), p)
  {
    if !Allowed(cfg, w.procs[p], net) { return; }
    match w.procs[p].token
    case At(n) => QueuedAdvances(cfg, w, p, n, net, now);
    case Locking(i) => LockingAdvances(w, p, i, net);
    case RollingBack(n, j) => RollbackAdvances(cfg, w, p, n, j, net);
    case Unlocking(j) => UnlockingAdvances(w, p, j, net);
    case Incident(_) =>
  }

  lemma ExecKeepsInv(cfg: Config, w: World, a: Action)
    requires Inv(w)
    ensures Inv(Exec(cfg, w, a))
  {
    var w' := Exec(cfg, w, a);
    match a
    case Publish(o, p, started) => PublishKeepsInv(w, o, p, started);
    case Task(p, net, now) =>
      if p in w.procs {
        TaskAdvances(cfg, w, p, net, now);
        ProcAdvanceKeepsInv(w, w', p);
      }
    case _ => AdminAdvances(cfg, w, a); AdvanceKeepsInv(w, w');
  }

  /** Calls of an administrator other than publishing. */
  lemma OfferingCallAdvances(w: World, w': World, call: O.Call)
    requires call.Create? || call.Update? || call.Delete? || call.Retire?
    requires w'.procs == w.procs && w.used <= w'.used && w'.offerings == O.Serve(w.offerings, call).0
    ensures OfferingsAdvance(w, w')
  {
  }

  lemma AdminAdvances(cfg: Config, w: World, a: Action)
    requires !a.Publish? && !a.Task?
    ensures OfferingsAdvance(w, Exec(cfg, w, a))
  {
    var w' := Exec(cfg, w, a);
    match a
    case CreateOffering(o, input) => if o !in w.used { OfferingCallAdvances(w, w', O.Create(o, input, Readable(w))); }
    case UpdateOffering(o, input) => OfferingCallAdvances(w, w', O.Update(o, input, Readable(w)));
    case DeleteOffering(o) => OfferingCallAdvances(w, w', O.Delete(o));
    case RetireOffering(o, now) => OfferingCallAdvances(w, w', O.Retire(o, now));
    case _ =>
  }

  /** No step takes a live offering back. */
  lemma LiveSurvives(cfg: Config, w: World, a: Action, o: Id)
    requires Inv(w) && o in w.offerings.table && O.Live(w.offerings.table[o])
    ensures var t' := Exec(cfg, w, a).offerings.table; o in t' && O.Live(t'[o])
  {
    if a.Task? {
      if a.proc in w.procs { TaskAdvances(cfg, w, a.proc, a.net, a.now); }
    } else if !a.Publish? {
      AdminAdvances(cfg, w, a);
    }
  }

  lemma {:induction false} RunKeepsInv(cfg: Config, acts: seq<Action>)
    ensures Inv(Run(cfg, acts))
  {
    if acts != [] {
      RunKeepsInv(cfg, acts[..|acts| - 1]);
      ExecKeepsInv(cfg, Run(cfg, acts[..|acts| - 1]), acts[|acts| - 1]);
    }
  }

  /** In every reachable state an offering has at most one live saga; while it is live the offering
      is PUBLISHING and the saga's copied lists are the offering's current ones. */
  lemma LiveSagaAgreesWithOffering(cfg: Config, acts: seq<Action>, p: Id)
    requires p in Run(cfg, acts).procs && IsLive(Run(cfg, acts).procs[p].token)
    ensures var w := Run(cfg, acts);
            var proc := w.procs[p];
            && proc.offering in w.offerings.table
            && w.offerings.table[proc.offering].status == O.PUBLISHING
            && w.offerings.table[proc.offering].content.specIds == proc.specIds
            && w.offerings.table[proc.offering].content.priceIds == proc.priceIds
            && forall q :: q in w.procs && IsLive(w.procs[q].token) && w.procs[q].offering == proc.offering ==> q == p
  {
    RunKeepsInv(cfg, acts);
    assert Agrees(Run(cfg, acts), p);
  }

  /** So a confirmation or a reversal asked for by the saga never meets a wrong state. */
  lemma SagaCallsNeverMeetWrongState(cfg: Config, acts: seq<Action>, p: Id, now: int)
    requires p in Run(cfg, acts).procs
    ensures var w := Run(cfg, acts);
            var proc := w.procs[p];
            && (proc.token == At(ConfirmPublication) ==> O.Serve(w.offerings, O.Confirm(proc.offering, now)).1 == O.Ok)
            && (proc.token == At(RevertToDraft) ==> O.Serve(w.offerings, O.Fail(proc.offering)).1 == O.Ok)
  {
    if IsLive(Run(cfg, acts).procs[p].token) { LiveSagaAgreesWithOffering(cfg, acts, p); }
  }
}

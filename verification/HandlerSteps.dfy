/** The steps of the world are what the services and handlers do: the pricing tasks, seen call by call and run
    without interruption, the one-call tasks, the start of a publication, and the handling of an event. */
module HandlerSteps {
  import opened Common
  import opened SagaGraph
  import opened WorldModel
  import P = Pricing
  import PW = PricingWorker
  import O = Offerings
  import S = Specifications
  import C = Characteristics
  import CharCache
  import St = Store
  import SW = SagaWorkers

  /** w with another price database and another token for process p. */
  function After(w: World, p: Id, db: P.Db, t: Token): World
    requires p in w.procs
  {
    Move(w, p, t).(prices := db)
  }

  /** Lock calls from number i on, until one fails or all are made. */
  function LockSteps(w: World, p: Id, i: nat, net: nat -> Net): World
    requires p in w.procs && w.procs[p].token == Locking(i)
    decreases |w.procs[p].priceIds| - i
  {
    if i >= |w.procs[p].priceIds| then w
    else
      var w' := ExecLocking(w, p, i, net(i));
      if w'.procs[p].token == Locking(i + 1) then LockSteps(w', p, i + 1, net) else w'
  }

  lemma {:induction false} LockStepsAreLoop(w: World, p: Id, i: nat, net: nat -> Net)
    requires p in w.procs && w.procs[p].token == Locking(i) && i <= |w.procs[p].priceIds|
    ensures var ids := w.procs[p].priceIds;
            var (db, k) := PW.LockLoop(w.prices, ids, p, net, i);
            && i <= k <= |ids|
            && LockSteps(w, p, i, net) == After(w, p, db, if k == |ids| then Locking(k) else RollingBack(k, 0))
    decreases |w.procs[p].priceIds| - i
  {
    var ids := w.procs[p].priceIds;
    if i < |ids| {
      var (db', ok) := PW.LockCall(w.prices, ids[i], p, net(i));
      var w' := ExecLocking(w, p, i, net(i));
      assert w' == After(w, p, db', if ok then Locking(i + 1) else RollingBack(i, 0));
      if ok { LockStepsAreLoop(w', p, i + 1, net); }
    } else {
      assert w == After(w, p, w.prices, Locking(i));
    }
  }

  /** Rollback calls from number j up to n, until one raises. */
  function RollbackSteps(cfg: Config, w: World, p: Id, n: nat, j: nat, net: nat -> Net): World
    requires p in w.procs && w.procs[p].token == RollingBack(n, j)
    decreases n - j
  {
    if j >= n || j >= |w.procs[p].priceIds| then w
    else
      var w' := ExecRollback(cfg, w, p, n, j, net(j));
      if w'.procs[p].token == RollingBack(n, j + 1) then RollbackSteps(cfg, w', p, n, j + 1, net) else w'
  }

  lemma {:induction false} RollbackStepsAreLoop(cfg: Config, w: World, p: Id, n: nat, j: nat, net: nat -> Net)
    requires p in w.procs && w.procs[p].token == RollingBack(n, j) && j <= n <= |w.procs[p].priceIds|
    ensures var (db, quiet) := PW.UnlockLoop(w.prices, w.procs[p].priceIds, net, j, n);
            RollbackSteps(cfg, w, p, n, j, net)
            == if quiet then After(w, p, db, RollingBack(n, n))
              else After(w, p, db, Incident(LockPrices)).(worker := None)
    decreases n - j
  {
    var ids := w.procs[p].priceIds;
    if j < n {
      var db' := PW.UnlockCall(w.prices, ids[j], net(j));
      var w' := ExecRollback(cfg, w, p, n, j, net(j));
      if !net(j).Raises() {
        assert w' == After(w, p, db', RollingBack(n, j + 1));
        RollbackStepsAreLoop(cfg, w', p, n, j + 1, net);
      }
    } else {
      assert w == After(w, p, w.prices, RollingBack(n, n));
    }
  }

  /** Unlock calls from number j on, until one raises. */
  function UnlockSteps(w: World, p: Id, j: nat, net: nat -> Net): World
    requires p in w.procs && w.procs[p].token == Unlocking(j)
    decreases |w.procs[p].priceIds| - j
  {
    if j >= |w.procs[p].priceIds| then w
    else
      var w' := ExecUnlocking(w, p, j, net(j));
      if w'.procs[p].token == Unlocking(j + 1) then UnlockSteps(w', p, j + 1, net) else w'
  }

  lemma {:induction false} UnlockStepsAreLoop(w: World, p: Id, j: nat, net: nat -> Net)
    requires p in w.procs && w.procs[p].token == Unlocking(j) && j <= |w.procs[p].priceIds|
    ensures var n := |w.procs[p].priceIds|;
            var (db, quiet) := PW.UnlockLoop(w.prices, w.procs[p].priceIds, net, j, n);
            UnlockSteps(w, p, j, net)
            == if quiet then After(w, p, db, Unlocking(n)) else After(w, p, db, Incident(UnlockPrices)).(worker := None)
    decreases |w.procs[p].priceIds| - j
  {
    var ids := w.procs[p].priceIds;
    if j < |ids| {
      var db' := PW.UnlockCall(w.prices, ids[j], net(j));
      var w' := ExecUnlocking(w, p, j, net(j));
      if !net(j).Raises() {
        assert w' == After(w, p, db', Unlocking(j + 1));
        UnlockStepsAreLoop(w', p, j + 1, net);
      }
    } else {
      assert w == After(w, p, w.prices, Unlocking(j));
    }
  }

  /** Where a handler's outcome sends the token. */
  function TokenAfter(r: Route, n: Node, out: Outcome): Token
    requires out == BpmnError ==> Guarded(n)
  {
    match out
    case Completed => At(OnComplete(n))
    case BpmnError => At(OnError(r, n))
    case Raised => Incident(n)
  }

  /** The whole Lock Prices task, uninterrupted. */
  function LockTask(cfg: Config, w: World, p: Id, net: nat -> Net, back: nat -> Net): World
    requires p in w.procs
  {
    var n := |w.procs[p].priceIds|;
    var locked := LockSteps(Move(w, p, Locking(0)).(worker := Some(p)), p, 0, net);
    if p !in locked.procs then w
    else
      match locked.procs[p].token
      case Locking(i) => ExecLocking(locked, p, i, Delivered)
      case RollingBack(k, j) =>
        var back' := RollbackSteps(cfg, locked, p, k, j, back);
        if p in back'.procs && back'.procs[p].token == RollingBack(k, k)
          then ExecRollback(cfg, back', p, k, k, Delivered) else back'
      case _ => w
  }

  /** The world's Lock Prices steps, run in one go, are the lock handler: the same price database, and the
      token goes where the handler's outcome says. */
  lemma LockTaskIsHandler(cfg: Config, w: World, p: Id, net: nat -> Net, back: nat -> Net)
    requires p in w.procs && w.procs[p].token == At(LockPrices) && w.worker == None
    ensures var (db, out) := PW.LockHandler(w.prices, w.procs[p].priceIds, p, net, back);
            var w' := LockTask(cfg, w, p, net, back);
            && w'.prices == db && w'.worker == None && p in w'.procs
            && w'.procs[p].token == TokenAfter(cfg.route, LockPrices, out)
            && (out == Completed ==> w'.procs[p].locked)
  {
    var ids := w.procs[p].priceIds;
    var start := Move(w, p, Locking(0)).(worker := Some(p));
    LockStepsAreLoop(start, p, 0, net);
    var (db, k) := PW.LockLoop(w.prices, ids, p, net, 0);
    if k < |ids| {
      var locked := After(start, p, db, RollingBack(k, 0));
      RollbackStepsAreLoop(cfg, locked, p, k, 0, back);
    }
  }

  /** The whole Unlock Prices task, uninterrupted. */
  function UnlockTask(w: World, p: Id, net: nat -> Net): World
    requires p in w.procs
  {
    var n := |w.procs[p].priceIds|;
    var done := UnlockSteps(Move(w, p, Unlocking(0)).(worker := Some(p)), p, 0, net);
    if p in done.procs && done.procs[p].token == Unlocking(n) then ExecUnlocking(done, p, n, Delivered) else done
  }

  /** The same for Unlock Prices. */
  lemma UnlockTaskIsHandler(cfg: Config, w: World, p: Id, net: nat -> Net)
    requires p in w.procs && w.procs[p].token == At(UnlockPrices) && w.worker == None
    ensures var (db, out) := PW.UnlockHandler(w.prices, w.procs[p].priceIds, net);
            out != BpmnError && UnlockTask(w, p, net) == After(w, p, db, TokenAfter(cfg.route, UnlockPrices, out))
  {
    var start := Move(w, p, Unlocking(0)).(worker := Some(p));
    UnlockStepsAreLoop(start, p, 0, net);
    assert start.procs[p].priceIds == w.procs[p].priceIds;
  }

  // ---- the one-call tasks ---------------------------------------------------------------------------

  /** The world after a one-call task: `ran` with the token of p moved as the outcome says. */
  function Reported(cfg: Config, ran: World, p: Id, n: Node, out: Outcome): World
    requires p in ran.procs && (out == BpmnError ==> Guarded(n))
  {
    Move(ran, p, TokenAfter(cfg.route, n, out))
  }

  /** Confirm Publication and Revert To Draft do what their handlers do to the offering database. */
  lemma OfferingTasksAreHandlers(cfg: Config, w: World, p: Id, net: Net, now: int)
    requires p in w.procs && net != Hollow
    ensures w.procs[p].token == At(ConfirmPublication) ==>
              var (db, out) := SW.ConfirmHandler(w.offerings, w.procs[p].offering, now, net);
              ExecQueued(cfg, w, p, ConfirmPublication, net, now)
              == Reported(cfg, w.(offerings := db), p, ConfirmPublication, out)
    ensures w.procs[p].token == At(RevertToDraft) ==>
              var (db, out) := SW.RevertHandler(w.offerings, w.procs[p].offering, net);
              out != BpmnError
              && ExecQueued(cfg, w, p, RevertToDraft, net, now)
                 == Reported(cfg, w.(offerings := db), p, RevertToDraft, out)
  {
    assert w.(offerings := w.offerings) == w;
  }

  /** Validate Specifications changes nothing but the token. */
  lemma ValidateTaskIsHandler(cfg: Config, w: World, p: Id, net: Net, now: int)
    requires p in w.procs && w.procs[p].token == At(ValidateSpecs) && net != Hollow
    ensures ExecQueued(cfg, w, p, ValidateSpecs, net, now)
            == Reported(cfg, w, p, ValidateSpecs, SW.ValidateHandler(w.specs.table, w.procs[p].specIds, net))
  {
  }

  /** The two store tasks do to the world's one index what their handlers do to each of the two, when no call
      stops halfway. */
  lemma StoreTasksAreHandlers(cfg: Config, w: World, p: Id, net: Net, now: int, st: St.State)
    requires p in w.procs && st.mongo == w.docs && st.es == w.docs
    ensures w.procs[p].token == At(CreateStoreEntry) ==>
              var (st', out) := SW.CreateHandler(st, Sources(w), w.procs[p].offering, net, false);
              st'.mongo == st'.es
              && ExecQueued(cfg, w, p, CreateStoreEntry, net, now)
                 == Reported(cfg, w.(docs := st'.mongo), p, CreateStoreEntry, out)
    ensures w.procs[p].token == At(DeleteStoreEntry) && net != Hollow ==>
              var (st', out) := SW.DeleteHandler(st, w.procs[p].offering, net, false);
              st'.mongo == st'.es && out != BpmnError
              && ExecQueued(cfg, w, p, DeleteStoreEntry, net, now)
                 == Reported(cfg, w.(docs := st'.mongo), p, DeleteStoreEntry, out)
  {
    assert St.SyncAll(w.docs, Sources(w), {w.procs[p].offering}, false) == w.docs;
    assert w.(docs := w.docs) == w;
  }

  // ---- the other steps --------------------------------------------------------------------------------

  /** A Publish step with a new process id is initiate_publication: exactly for a DRAFT with a specification, a
      price and a channel the offering turns PUBLISHING, with its event, and if Camunda accepts a process stands at
      Lock Prices with the lists of the row. Otherwise nothing happens. */
  lemma PublishIsInitiation(cfg: Config, w: World, o: Id, p: Id, started: bool)
    requires p !in w.used
    ensures var w' := Exec(cfg, w, Publish(o, p, started));
            if o in w.offerings.table && w.offerings.table[o].status == O.DRAFT
               && w.offerings.table[o].content.specIds != [] && w.offerings.table[o].content.priceIds != []
               && w.offerings.table[o].content.channels != [] then
              var row := w.offerings.table[o].content;
              && O.Initiates(w.offerings, o, w'.offerings, O.Ok)
              && w' == w.(offerings := w'.offerings, used := w.used + {p},
                          procs := if !started then w.procs
                                   else w.procs[p := Proc(o, row.specIds, row.priceIds, At(LockPrices), false)])
            else w' == w
  {
    O.ServeKeepsPromises(w.offerings, O.Initiate(o));
  }

  /** What the store is told by the next event of a topic: its type, and the id in its payload. */
  function Told(w: World, topic: St.Kind): Option<(St.EventType, Id)> {
    match topic
    case KOffering =>
      if w.read.offerings >= |w.offerings.outbox| then None
      else Some((OfferingType(w.offerings.outbox[w.read.offerings]), w.offerings.outbox[w.read.offerings].id))
    case KSpecification =>
      if w.read.specs >= |w.specs.outbox| then None
      else Some((SpecType(w.specs.outbox[w.read.specs]), w.specs.outbox[w.read.specs].id))
    case KCharacteristic =>
      if w.read.chars >= |w.chars.outbox| then None
      else Some((CharType(w.chars.outbox[w.read.chars]), w.chars.outbox[w.read.chars].id))
    case KPrice =>
      if w.read.prices >= |w.prices.outbox| then None
      else Some((PriceType(w.prices.outbox[w.read.prices]), w.prices.outbox[w.read.prices].id))
  }

  lemma DeliverIsHandle(w: World, topic: St.Kind, reachable: bool)
    requires Told(w, topic).Some?
    ensures var (t, x) := Told(w, topic).value;
            ExecDeliver(w, topic, reachable).docs == St.Handle(w.docs, Sources(w), t, x, reachable)
  {
  }

  /** A Deliver step is the consumer's handling of that event, when it is new: with effect if nothing stops the
      handler and all syncs get through, without if the handler is stopped before its first write or no sync does. */
  lemma DeliverIsConsumption(w: World, topic: St.Kind, st: St.State, id: Id, fate: St.Fate)
    requires Told(w, topic).Some? && st.mongo == w.docs && id !in st.processed
    ensures var (t, x) := Told(w, topic).value;
            var st' := St.Consume(st, Sources(w), St.Body(Some(id), Some(t), Some(x)), fate);
            && (fate.stop == St.Through && St.Targets(w.docs, t, x) <= fate.reached ==>
                  ExecDeliver(w, topic, true).docs == st'.mongo)
            && (fate.stop == St.Through && t != St.OfferingRetired && St.Targets(w.docs, t, x) !! fate.reached ==>
                  ExecDeliver(w, topic, false).docs == st'.mongo)
            && (fate.stop == St.AtStart || (fate.stop == St.AtFirst && t == St.OfferingRetired) ==>
                  ExecDeliver(w, topic, false).docs == st'.mongo)
  {
    var (t, x) := Told(w, topic).value;
    DeliverIsHandle(w, topic, true);
    DeliverIsHandle(w, topic, false);
    if fate.stop == St.Through {
      St.ConsumeHandles(st, Sources(w), St.Body(Some(id), Some(t), Some(x)), fate);
    } else if fate.stop == St.AtStart || (fate.stop == St.AtFirst && t == St.OfferingRetired) {
      St.StoppedEventIsLost(st, Sources(w), St.Body(Some(id), Some(t), Some(x)), fate);
    }
  }

  /** The administrators' steps are calls of the services, with new ids for what is created; a cache step applies
      one more event. */
  lemma AdminStepsAreCalls(cfg: Config, w: World, a: Action)
    ensures var w' := Exec(cfg, w, a);
            match a
            case PriceAdmin(call) => !call.Lock? && !call.Unlock? && (call.Create? ==> call.id !in w.used) ==>
              w'.prices == P.Serve(w.prices, call).0
            case CharAdmin(call) => (call.Create? ==> call.id !in w.used) ==> w'.chars == C.Serve(w.chars, call).0
            case SpecAdmin(call) =>
              (call.Create? ==> call.id !in w.used) ==> w'.specs == S.Serve(w.specs, call, CacheNow(w)).0
            case CreateOffering(o, input) =>
              o !in w.used ==> w'.offerings == O.Serve(w.offerings, O.Create(o, input, Readable(w))).0
            case UpdateOffering(o, input) =>
              w'.offerings == O.Serve(w.offerings, O.Update(o, input, Readable(w))).0
            case DeleteOffering(o) => w'.offerings == O.Serve(w.offerings, O.Delete(o)).0
            case RetireOffering(o, now) => w'.offerings == O.Serve(w.offerings, O.Retire(o, now)).0
            case SyncCache =>
              w.cacheAt < |w.chars.outbox| ==>
                CacheNow(w') == CharCache.Apply(CacheNow(w), w.chars.outbox[w.cacheAt])
            case _ => true
  {
    if a.SyncCache? && w.cacheAt < |w.chars.outbox| {
      assert w.chars.outbox[..w.cacheAt + 1][..w.cacheAt] == w.chars.outbox[..w.cacheAt];
    }
  }
}

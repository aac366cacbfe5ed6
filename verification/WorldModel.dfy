/** The whole system as one state machine: four services with their outboxes, the saga's process
    instances, the single pricing worker, and the store's indexes. One step is one service call, one
    event handled, or one move of a task handler. */
module WorldModel {
  import opened Common
  import opened SagaGraph
  import P = Pricing
  import PW = PricingWorker
  import O = Offerings
  import S = Specifications
  import C = Characteristics
  import CharCache
  import St = Store

  /** Where a process instance stands. At(n): task n is queued, or the instance has ended at n. A
      pricing handler is seen call by call; Incident(n) is a task that failed with no retries. */
  datatype Token =
    | At(node: Node)
    | Locking(done: nat)
    | RollingBack(upTo: nat, done: nat)
    | Unlocking(done: nat)
    | Incident(node: Node)

  /** A process instance; its lists are copied at the start. `locked` records that Lock Prices completed. */
  datatype Proc = Proc(offering: Id, specIds: seq<Id>, priceIds: seq<Id>, token: Token, locked: bool)

  /** How many events of each outbox the store has handled. */
  datatype Progress = Progress(offerings: nat, specs: nat, chars: nat, prices: nat)

  datatype World = World(
    prices: P.Db, offerings: O.Db, specs: S.Db, chars: C.Db,
    cacheAt: nat,             // characteristic events applied to the specification service's cache
    procs: map<Id, Proc>,
    worker: Option<Id>,       // the process whose task the pricing worker is executing
    docs: St.Index,           // the stored documents, the same in both indexes
    read: Progress,
    used: set<Id>)            // every id ever given out

  /** What the environment of a run may do wrong. */
  datatype Config = Config(
    route: Route,
    compensationsFail: bool,  // a rollback, unlock, delete or revert call is answered with an error
    incidents: bool,          // a handler ends with an exception
    lostLockReplies: bool,    // a lock request runs although its reply is lost
    hollowSyncs: bool)        // a store sync fails silently, or the store's consumer loses an event

  datatype Action =
    | PriceAdmin(call: P.Call)
    | CharAdmin(charCall: C.Call)
    | SpecAdmin(specCall: S.Call)
    | CreateOffering(id: Id, input: O.OfferingIn)
    | UpdateOffering(id: Id, input: O.OfferingIn)
    | DeleteOffering(id: Id)
    | RetireOffering(id: Id, now: int)
    | Publish(id: Id, proc: Id, started: bool)
    | Task(proc: Id, net: Net, now: int)
    | Deliver(topic: St.Kind, reachable: bool)  // reachable: with effect
    | SyncCache

  const INIT := World(P.EMPTY, O.EMPTY, S.EMPTY, C.EMPTY, 0, map[], None, map[], Progress(0, 0, 0, 0), {})

  function Sources(w: World): St.Sources {
    St.Sources(w.offerings.table, w.specs.table, w.chars.table, w.prices.table)
  }

  function Readable(w: World): O.Readable { O.Readable(w.specs.table.Keys, w.prices.table.Keys, {}, {}) }

  function CacheNow(w: World): S.Cache {
    if w.cacheAt <= |w.chars.outbox| then CharCache.ApplyAll(map[], w.chars.outbox[..w.cacheAt]) else map[]
  }

  // ---- events -------------------------------------------------------------------------------

  function OfferingType(e: O.Event): St.EventType {
    match e
    case Created(_, _) => St.OfferingCreated
    case Updated(_, _) => St.OfferingUpdated
    case PublicationInitiated(_, _) => St.OfferingPublicationInitiated
    case Published(_, _) => St.OfferingPublished
    case Retired(_, _) => St.OfferingRetired
  }

  function SpecType(e: S.Event): St.EventType {
    match e
    case Created(_, _) => St.SpecificationCreated
    case Updated(_, _) => St.SpecificationUpdated
    case Deleted(_) => St.SpecificationDeleted
  }

  function CharType(e: C.Event): St.EventType {
    match e
    case Created(_, _) => St.CharacteristicCreated
    case Updated(_, _) => St.CharacteristicUpdated
    case Deleted(_) => St.CharacteristicDeleted
  }

  function PriceType(e: P.Event): St.EventType {
    match e
    case Created(_, _) => St.PriceCreated
    case Updated(_, _) => St.PriceUpdated
    case Deleted(_) => St.PriceDeleted
    case Locked(_, _) => St.PriceLocked
    case Unlocked(_, _) => St.PriceUnlocked
  }

  ghost function Handled(w: World, t: St.EventType, x: Id, reachable: bool): St.Index {
    St.Handle(w.docs, Sources(w), t, x, reachable)
  }

  /** The store handles the next event of one topic. */
  ghost function ExecDeliver(w: World, topic: St.Kind, reachable: bool): World {
    match topic
    case KOffering =>
      if w.read.offerings >= |w.offerings.outbox| then w
      else
        var e := w.offerings.outbox[w.read.offerings];
        w.(docs := Handled(w, OfferingType(e), e.id, reachable), read := w.read.(offerings := w.read.offerings + 1))
    case KSpecification =>
      if w.read.specs >= |w.specs.outbox| then w
      else
        var e := w.specs.outbox[w.read.specs];
        w.(docs := Handled(w, SpecType(e), e.id, reachable), read := w.read.(specs := w.read.specs + 1))
    case KCharacteristic =>
      if w.read.chars >= |w.chars.outbox| then w
      else
        var e := w.chars.outbox[w.read.chars];
        w.(docs := Handled(w, CharType(e), e.id, reachable), read := w.read.(chars := w.read.chars + 1))
    case KPrice =>
      if w.read.prices >= |w.prices.outbox| then w
      else
        var e := w.prices.outbox[w.read.prices];
        w.(docs := Handled(w, PriceType(e), e.id, reachable), read := w.read.(prices := w.read.prices + 1))
  }

  // ---- task steps ------------------------------------------------------------------------------

  function Move(w: World, p: Id, t: Token): World
    requires p in w.procs
  {
    w.(procs := w.procs[p := w.procs[p].(token := t)])
  }

  /** A one-call task: `ran` is the world after the call took effect. */
  function Settle(cfg: Config, w: World, ran: World, p: Id, n: Node, replyOk: bool, net: Net): World
    requires p in w.procs && ran.procs == w.procs
  {
    var base := if net.Ran() then ran else w;
    match Report(n, replyOk, net)
    case Completed => Move(base, p, At(OnComplete(n)))
    case BpmnError => Move(base, p, At(OnError(cfg.route, n)))
    case Raised => Move(base, p, Incident(n))
  }

  ghost function ExecQueued(cfg: Config, w: World, p: Id, n: Node, net: Net, now: int): World
    requires p in w.procs
  {
    var proc := w.procs[p];
    var o := proc.offering;
    match n
    case LockPrices => if w.worker == None then Move(w, p, Locking(0)).(worker := Some(p)) else w
    case UnlockPrices => if w.worker == None then Move(w, p, Unlocking(0)).(worker := Some(p)) else w
    case ValidateSpecs => Settle(cfg, w, w, p, n, S.AllFound(w.specs.table, proc.specIds), net)
    case CreateStoreEntry =>
      Settle(cfg, w, w.(docs := St.SyncAll(w.docs, Sources(w), {o}, true)), p, n, true, net)
    case ConfirmPublication =>
      var (db, reply) := O.Serve(w.offerings, O.Confirm(o, now));
      Settle(cfg, w, w.(offerings := db), p, n, reply == O.Ok, net)
    case DeleteStoreEntry => Settle(cfg, w, w.(docs := w.docs - {o}), p, n, true, net)
    case RevertToDraft => Settle(cfg, w, w.(offerings := O.Serve(w.offerings, O.Fail(o)).0), p, n, true, net)
    case Succeeded => w
    case Failed => w
  }

  function ExecLocking(w: World, p: Id, i: nat, net: Net): World
    requires p in w.procs
  {
    var proc := w.procs[p];
    if i < |proc.priceIds| then
      var (db, ok) := PW.LockCall(w.prices, proc.priceIds[i], p, net);
      Move(w, p, if ok then Locking(i + 1) else RollingBack(i, 0)).(prices := db)
    else if net == Delivered then
      w.(worker := None, procs := w.procs[p := proc.(token := At(OnComplete(LockPrices)), locked := true)])
    else Move(w, p, Incident(LockPrices)).(worker := None)
  }

  function ExecRollback(cfg: Config, w: World, p: Id, n: nat, j: nat, net: Net): World
    requires p in w.procs
  {
    var ids := w.procs[p].priceIds;
    if j < n && j < |ids| then
      var db := PW.UnlockCall(w.prices, ids[j], net);
      if net.Raises() then Move(w, p, Incident(LockPrices)).(prices := db, worker := None)
      else Move(w, p, RollingBack(n, j + 1)).(prices := db)
    else Move(w, p, At(OnError(cfg.route, LockPrices))).(worker := None)
  }

  function ExecUnlocking(w: World, p: Id, j: nat, net: Net): World
    requires p in w.procs
  {
    var ids := w.procs[p].priceIds;
    if j < |ids| then
      var db := PW.UnlockCall(w.prices, ids[j], net);
      if net.Raises() then Move(w, p, Incident(UnlockPrices)).(prices := db, worker := None)
      else Move(w, p, Unlocking(j + 1)).(prices := db)
    else if net == Delivered then Move(w, p, At(OnComplete(UnlockPrices))).(worker := None)
    else Move(w, p, Incident(UnlockPrices)).(worker := None)
  }

  /** Whether the environment may give the next call of this process the fate `net`. */
  predicate Allowed(cfg: Config, proc: Proc, net: Net) {
    match proc.token
    case At(n) =>
      && (net.Raises() ==> cfg.incidents)
      && (net == Hollow ==> cfg.hollowSyncs && n == CreateStoreEntry)
      && (net == Refused && (n == DeleteStoreEntry || n == RevertToDraft) ==> cfg.compensationsFail)
    case Locking(i) =>
      if i < |proc.priceIds| then net == ReplyLost ==> cfg.lostLockReplies
      else net != Delivered ==> cfg.incidents
    case RollingBack(_, _) => (net.Raises() ==> cfg.incidents)
      && (net == Refused || net == Hollow ==> cfg.compensationsFail)
    case Unlocking(i) =>
      if i < |proc.priceIds| then
        (net.Raises() ==> cfg.incidents) && (net == Refused || net == Hollow ==> cfg.compensationsFail)
      else net != Delivered ==> cfg.incidents
    case Incident(_) => true
  }

  ghost function ExecTask(cfg: Config, w: World, p: Id, net: Net, now: int): World
    requires p in w.procs
  {
    if !Allowed(cfg, w.procs[p], net) then w
    else
      match w.procs[p].token
      case At(n) => ExecQueued(cfg, w, p, n, net, now)
      case Locking(i) => ExecLocking(w, p, i, net)
      case RollingBack(n, j) => ExecRollback(cfg, w, p, n, j, net)
      case Unlocking(j) => ExecUnlocking(w, p, j, net)
      case Incident(_) => w
  }

  // ---- one step, and runs -----------------------------------------------------------------------

  /** Starts the process unless Camunda refuses, which is logged and changes nothing else. */
  ghost function ExecPublish(w: World, o: Id, p: Id, started: bool): World {
    var (db, reply) := O.Serve(w.offerings, O.Initiate(o));
    if p in w.used || reply != O.Ok then w
    else
      var w' := w.(offerings := db, used := w.used + {p});
      if !started then w'
      else
        var content := db.table[o].content;
        w'.(procs := w.procs[p := Proc(o, content.specIds, content.priceIds, At(LockPrices), false)])
  }

  ghost function Exec(cfg: Config, w: World, a: Action): World {
    match a
    case PriceAdmin(call) =>
      if call.Lock? || call.Unlock? || (call.Create? && call.id in w.used) then w
      else w.(prices := P.Serve(w.prices, call).0, used := w.used + if call.Create? then {call.id} else {})
    case CharAdmin(call) =>
      if call.Create? && call.id in w.used then w
      else w.(chars := C.Serve(w.chars, call).0, used := w.used + if call.Create? then {call.id} else {})
    case SpecAdmin(call) =>
      if call.Create? && call.id in w.used then w
      else w.(specs := S.Serve(w.specs, call, CacheNow(w)).0, used := w.used + if call.Create? then {call.id} else {})
    case CreateOffering(o, input) =>
      if o in w.used then w
      else w.(offerings := O.Serve(w.offerings, O.Create(o, input, Readable(w))).0, used := w.used + {o})
    case UpdateOffering(o, input) => w.(offerings := O.Serve(w.offerings, O.Update(o, input, Readable(w))).0)
    case DeleteOffering(o) => w.(offerings := O.Serve(w.offerings, O.Delete(o)).0)
    case RetireOffering(o, now) => w.(offerings := O.Serve(w.offerings, O.Retire(o, now)).0)
    case Publish(o, p, started) => ExecPublish(w, o, p, started)
    case Task(p, net, now) => if p in w.procs then ExecTask(cfg, w, p, net, now) else w
    case Deliver(topic, reachable) => if !reachable && !cfg.hollowSyncs then w else ExecDeliver(w, topic, reachable)
    case SyncCache => if w.cacheAt < |w.chars.outbox| then w.(cacheAt := w.cacheAt + 1) else w
  }

  ghost function RunFrom(cfg: Config, w: World, acts: seq<Action>): World {
    if acts == [] then w else Exec(cfg, RunFrom(cfg, w, acts[..|acts| - 1]), acts[|acts| - 1])
  }

  ghost function Run(cfg: Config, acts: seq<Action>): World { RunFrom(cfg, INIT, acts) }

  lemma {:induction false} RunSplits(cfg: Config, w: World, acts: seq<Action>, more: seq<Action>)
    ensures RunFrom(cfg, w, acts + more) == RunFrom(cfg, RunFrom(cfg, w, acts), more)
  {
    if more == [] {
      assert acts + more == acts;
    } else {
      assert (acts + more)[..|acts + more| - 1] == acts + more[..|more| - 1];
      RunSplits(cfg, w, acts, more[..|more| - 1]);
    }
  }
}

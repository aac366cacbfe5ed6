/** The faultless case: exactly when a saga whose calls are all delivered succeeds. */
module DeliveredSaga {
  import opened Common
  import opened SagaGraph
  import opened WorldModel
  import opened Ownership
  import P = Pricing
  import PW = PricingWorker
  import O = Offerings
  import Agreement
  import SagaAlone
  import StoreAgrees
  import Validated

  /** k delivered steps of one process. */
  function Steps(p: Id, k: nat): (acts: seq<Action>)
    ensures |acts| == k
  {
    if k == 0 then [] else Steps(p, k - 1) + [Task(p, Delivered, 0)]
  }

  lemma OneMoreStep(cfg: Config, w: World, acts: seq<Action>, p: Id)
    requires SagaAlone.Solo(cfg, w, acts, p) && SagaAlone.Answered(cfg, w, acts, p) && p in RunFrom(cfg, w, acts).procs
    ensures var more := acts + [Task(p, Delivered, 0)];
            SagaAlone.Solo(cfg, w, more, p) && SagaAlone.Answered(cfg, w, more, p)
  {
  }

  /** A delivered call is always one the environment allows. */
  lemma {:induction false} StepsAreSolo(cfg: Config, w: World, p: Id, k: nat)
    requires SagaAlone.Ready(cfg, w, p)
    ensures SagaAlone.Solo(cfg, w, Steps(p, k), p) && SagaAlone.Answered(cfg, w, Steps(p, k), p)
  {
    if k > 0 {
      StepsAreSolo(cfg, w, p, k - 1);
      SagaAlone.SoloEnds(cfg, w, Steps(p, k - 1), p);
      OneMoreStep(cfg, w, Steps(p, k - 1), p);
    }
  }

  // ---- what decides ----------------------------------------------------------------------------------

  /** Every listed price exists and is unlocked, and every listed specification exists. */
  ghost predicate AllIsWell(w: World, p: Id)
    requires p in w.procs
  {
    && (forall x :: x in w.procs[p].priceIds ==> x in w.prices.table && !w.prices.table[x].locked)
    && (forall s :: s in w.procs[p].specIds ==> s in w.specs.table)
  }

  /** On the way to success. */
  predicate OnTrack(t: Token) {
    match t
    case At(n) => n == LockPrices || n == ValidateSpecs || n == CreateStoreEntry || n == ConfirmPublication
                  || n == Succeeded
    case Locking(_) => true
    case _ => false
  }

  /** Process p stands where it can, and the price table is what its calls made of it. */
  ghost predicate Stands(cfg: Config, start: World, w: World, p: Id, r: SagaAlone.Reach) {
    && SagaAlone.Ready(cfg, w, p) && Agreement.Inv(w) && P.Sound(w.prices.table)
    && SagaAlone.Explained(cfg, start.prices.table, w, r, p)
  }

  /** Its lists and the specifications are those of the start, and it is on track if all was well then. */
  ghost predicate KeepsCourse(start: World, w: World, p: Id) {
    && p in start.procs && p in w.procs && w.specs == start.specs
    && w.procs[p].specIds == start.procs[p].specIds && w.procs[p].priceIds == start.procs[p].priceIds
    && (AllIsWell(start, p) ==> OnTrack(w.procs[p].token))
    && (Validated.PastValidation(w.procs[p].token) ==>
          forall s :: s in w.procs[p].specIds ==> s in w.specs.table)
  }

  /** The state some steps after `start`. */
  ghost predicate Goes(cfg: Config, start: World, w: World, p: Id, r: SagaAlone.Reach) {
    Stands(cfg, start, w, p, r) && KeepsCourse(start, w, p) && !w.procs[p].token.Incident?
  }

  /** With every price free, the next lock call succeeds. */
  lemma LockCallSucceeds(cfg: Config, start: World, w: World, p: Id, r: SagaAlone.Reach, i: nat)
    requires Goes(cfg, start, w, p, r) && AllIsWell(start, p) && P.Sound(start.prices.table)
    requires w.procs[p].token == Locking(i) && i < |w.procs[p].priceIds|
    ensures PW.LockCall(w.prices, w.procs[p].priceIds[i], p, Delivered).1
  {
    var x := w.procs[p].priceIds[i];
    assert x in start.procs[p].priceIds;
    PW.LockCallEffect(w.prices, x, p, Delivered);
  }

  lemma QueuedOnTrack(cfg: Config, w: World, p: Id, n: Node, now: int)
    requires Agreement.Inv(w) && p in w.procs && w.procs[p].token == At(n) && OnTrack(At(n))
    requires n == ValidateSpecs ==> forall s :: s in w.procs[p].specIds ==> s in w.specs.table
    ensures OnTrack(ExecQueued(cfg, w, p, n, Delivered, now).procs[p].token)
  {
    if n == ConfirmPublication { assert Agreement.Agrees(w, p); }
  }

  lemma StepOnTrack(cfg: Config, start: World, w: World, p: Id, r: SagaAlone.Reach, now: int)
    requires Goes(cfg, start, w, p, r) && AllIsWell(start, p) && P.Sound(start.prices.table)
    ensures OnTrack(ExecTask(cfg, w, p, Delivered, now).procs[p].token)
  {
    match w.procs[p].token
    case At(n) => QueuedOnTrack(cfg, w, p, n, now);
    case Locking(i) => if i < |w.procs[p].priceIds| { LockCallSucceeds(cfg, start, w, p, r, i); }
    case _ =>
  }

  lemma StepValidated(cfg: Config, w: World, p: Id, now: int)
    requires p in w.procs && w.procs.Keys <= w.used
    requires Validated.PastValidation(w.procs[p].token) ==> forall s :: s in w.procs[p].specIds ==> s in w.specs.table
    ensures var w' := ExecTask(cfg, w, p, Delivered, now);
            && p in w'.procs && w'.specs == w.specs && w'.procs[p].specIds == w.procs[p].specIds
            && (Validated.PastValidation(w'.procs[p].token) ==>
                  forall s :: s in w'.procs[p].specIds ==> s in w'.specs.table)
  {
    var a := Task(p, Delivered, now);
    Validated.TaskLeavesChars(cfg, w, p, Delivered, now);
    Validated.TaskKeepsLists(cfg, w, p, Delivered, now);
    if Validated.PastValidation(ExecTask(cfg, w, p, Delivered, now).procs[p].token) {
      Validated.PassedByValidating(cfg, w, a, p);
    }
  }

  lemma DeliveredNoIncident(cfg: Config, w: World, p: Id, now: int)
    requires p in w.procs && !w.procs[p].token.Incident?
    ensures var w' := ExecTask(cfg, w, p, Delivered, now); p in w'.procs && !w'.procs[p].token.Incident?
  {
    match w.procs[p].token
    case At(n) =>
    case RollingBack(n, j) => if j < n && j < |w.procs[p].priceIds| {}
    case _ =>
  }

  lemma StepStands(cfg: Config, start: World, w: World, p: Id, r: SagaAlone.Reach)
    requires Stands(cfg, start, w, p, r) && P.Sound(start.prices.table) && PW.HoldsNothing(start.prices.table, p)
    ensures var a := Task(p, Delivered, 0);
            Stands(cfg, start, Exec(cfg, w, a), p, SagaAlone.Reached(cfg, w, r, a))
            && Exec(cfg, w, a).procs[p].priceIds == w.procs[p].priceIds
  {
    SagaAlone.StepNearer(cfg, w, p, Delivered, 0);
    SagaAlone.StepReaches(cfg, start.prices.table, w, r, p, Delivered, 0);
    Agreement.ExecKeepsInv(cfg, w, Task(p, Delivered, 0));
    StoreAgrees.TaskKeepsPricesSound(cfg, w, p, Delivered, 0);
  }

  lemma CourseKept(start: World, w: World, w': World, p: Id)
    requires KeepsCourse(start, w, p) && p in w'.procs && w'.specs == w.specs
    requires w'.procs[p].specIds == w.procs[p].specIds && w'.procs[p].priceIds == w.procs[p].priceIds
    requires AllIsWell(start, p) ==> OnTrack(w'.procs[p].token)
    requires Validated.PastValidation(w'.procs[p].token) ==>
               forall s :: s in w'.procs[p].specIds ==> s in w'.specs.table
    ensures KeepsCourse(start, w', p)
  {
  }

  lemma StepGoes(cfg: Config, start: World, w: World, p: Id, r: SagaAlone.Reach)
    requires Goes(cfg, start, w, p, r) && P.Sound(start.prices.table) && PW.HoldsNothing(start.prices.table, p)
    ensures var a := Task(p, Delivered, 0);
            Goes(cfg, start, Exec(cfg, w, a), p, SagaAlone.Reached(cfg, w, r, a))
  {
    var w' := ExecTask(cfg, w, p, Delivered, 0);
    StepStands(cfg, start, w, p, r);
    StepValidated(cfg, w, p, 0);
    DeliveredNoIncident(cfg, w, p, 0);
    if AllIsWell(start, p) { StepOnTrack(cfg, start, w, p, r, 0); }
    CourseKept(start, w, w', p);
    assert Exec(cfg, w, Task(p, Delivered, 0)) == w';
  }

  lemma {:induction false} StepsGo(cfg: Config, w: World, p: Id, k: nat)
    requires SagaAlone.Starting(cfg, w, p) && Agreement.Inv(w)
    ensures Goes(cfg, w, RunFrom(cfg, w, Steps(p, k)), p, SagaAlone.Touched(cfg, w, Steps(p, k)))
  {
    if k == 0 {
      SagaAlone.NothingTaken(w.prices.table, p);
    } else {
      StepsGo(cfg, w, p, k - 1);
      assert Steps(p, k)[..k - 1] == Steps(p, k - 1);
      StepGoes(cfg, w, RunFrom(cfg, w, Steps(p, k - 1)), p, SagaAlone.Touched(cfg, w, Steps(p, k - 1)));
    }
  }

  /** Whatever the route: a saga of n prices started anywhere in any run, then left alone with every call delivered,
      has ended after 3n + 10 steps, and it succeeds if and only if every price it lists exists unlocked and every
      specification it lists exists. */
  lemma SucceedsExactly(cfg: Config, acts: seq<Action>, p: Id)
    requires Run(cfg, acts).worker == None
    requires p in Run(cfg, acts).procs && Run(cfg, acts).procs[p].token == At(LockPrices)
    ensures var w := Run(cfg, acts);
            var w' := RunFrom(cfg, w, Steps(p, 3 * |w.procs[p].priceIds| + 10));
            && p in w'.procs && (w'.procs[p].token == At(Succeeded) || w'.procs[p].token == At(Failed))
            && (w'.procs[p].token == At(Succeeded) <==>
                  && (forall x :: x in w.procs[p].priceIds ==> x in w.prices.table && !w.prices.table[x].locked)
                  && (forall s :: s in w.procs[p].specIds ==> s in w.specs.table))
  {
    var w := Run(cfg, acts);
    var k := 3 * |w.procs[p].priceIds| + 10;
    SagaAlone.StartIsReady(cfg, acts, p);
    Agreement.RunKeepsInv(cfg, acts);
    EndsAsItMust(cfg, w, p, k);
  }

  lemma EndsAsItMust(cfg: Config, w: World, p: Id, k: nat)
    requires SagaAlone.Starting(cfg, w, p) && Agreement.Inv(w) && k >= 3 * |w.procs[p].priceIds| + 10
    ensures var w' := RunFrom(cfg, w, Steps(p, k));
            && p in w'.procs && SagaAlone.Ended(w'.procs[p].token)
            && (w'.procs[p].token == At(Succeeded) <==> AllIsWell(w, p))
  {
    StepsGo(cfg, w, p, k);
    EndedByThen(cfg, w, p, k);
    var w', r := RunFrom(cfg, w, Steps(p, k)), SagaAlone.Touched(cfg, w, Steps(p, k));
    if w'.procs[p].token == At(Succeeded) { WellIfSucceeded(cfg, w, w', p, r); }
  }

  lemma EndedByThen(cfg: Config, w: World, p: Id, k: nat)
    requires SagaAlone.Ready(cfg, w, p) && w.procs[p].token == At(LockPrices) && k >= 3 * |w.procs[p].priceIds| + 10
    ensures var w' := RunFrom(cfg, w, Steps(p, k));
            p in w'.procs && (SagaAlone.Ended(w'.procs[p].token) || w'.procs[p].token.Incident?)
  {
    StepsAreSolo(cfg, w, p, k);
    SagaAlone.SoloEnds(cfg, w, Steps(p, k), p);
  }

  /** What a saga that succeeded has locked was free, and that is its whole list. */
  lemma WellIfSucceeded(cfg: Config, start: World, w: World, p: Id, r: SagaAlone.Reach)
    requires Goes(cfg, start, w, p, r) && w.procs[p].token == At(Succeeded)
    ensures AllIsWell(start, p)
  {
    forall x | x in start.procs[p].priceIds ensures SagaAlone.Free(start.prices.table, x) { assert x in r.took; }
  }
}

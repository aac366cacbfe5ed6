/** Several pricing workers at once: a task may be started while another one is being executed. */
module ManyWorkers {
  import opened Common
  import opened SagaGraph
  import opened WorldModel
  import opened Ownership
  import P = Pricing
  import O = Offerings
  import Witness

  /** There is always a worker free to start a task. */
  ghost function ExecMany(cfg: Config, w: World, a: Action): World { Exec(cfg, w.(worker := None), a) }

  ghost function RunMany(cfg: Config, w: World, acts: seq<Action>): World {
    if acts == [] then w else ExecMany(cfg, RunMany(cfg, w, acts[..|acts| - 1]), acts[|acts| - 1])
  }

  predicate NoRepeats(ids: seq<Id>) { forall i, j :: 0 <= i < j < |ids| ==> ids[i] != ids[j] }

  ghost predicate ListsAreSimple(w: World) { forall p :: p in w.procs ==> NoRepeats(w.procs[p].priceIds) }

  /** In a list without repetitions the next price to unlock is one the process still holds. */
  lemma SimpleListsNeverSteal(cfg: Config, w: World, a: Action)
    requires cfg.route == ToRevert && Inv(cfg, w) && ListsAreSimple(w)
    ensures !Steals(cfg, w, a)
  {
    if Freed(cfg, w, a).Some? {
      var proc, x := w.procs[a.proc], Freed(cfg, w, a).value;
      assert NoRepeats(proc.priceIds) && TokenFits(cfg, proc);
      assert x in Holds(proc);
      OwnersApart(w, a.proc, x);
    }
  }

  lemma ListsPersist(cfg: Config, w: World, a: Action, p: Id)
    requires Fits(cfg, w) && p in w.procs
    ensures var w' := Exec(cfg, w, a); p in w'.procs && w'.procs[p].priceIds == w.procs[p].priceIds
  {
    if a.Task? && a.proc in w.procs && Allowed(cfg, w.procs[a.proc], a.net) { TaskSteps(cfg, w, a.proc, a.net, a.now); }
  }

  lemma InvIgnoresWorker(cfg: Config, w: World)
    requires Inv(cfg, w)
    ensures Inv(cfg, w.(worker := None))
  {
    var w' := w.(worker := None);
    forall p, x | p in w'.procs && x in Holds(w'.procs[p]) ensures IsLockedBy(w'.prices.table, x, p) {
      assert IsLockedBy(w.prices.table, x, p);
    }
  }

  /** Ownership does not rest on there being one worker, but on price lists without repetitions: with the error
      flow routed to Revert, and any number of workers, each saga always has what it must be holding. */
  lemma {:induction false} SimpleListsKeepOwnership(cfg: Config, w: World, acts: seq<Action>)
    requires cfg.route == ToRevert && Inv(cfg, w) && ListsAreSimple(RunMany(cfg, w, acts))
    ensures Inv(cfg, RunMany(cfg, w, acts))
  {
    if acts != [] {
      var mid, a := RunMany(cfg, w, acts[..|acts| - 1]), acts[|acts| - 1];
      EarlierListsAreSimple(cfg, w, acts);
      SimpleListsKeepOwnership(cfg, w, acts[..|acts| - 1]);
      InvIgnoresWorker(cfg, mid);
      SimpleListsNeverSteal(cfg, mid.(worker := None), a);
      OwnedUnlessStolen(cfg, mid.(worker := None), a);
    }
  }

  lemma {:induction false} FitsMany(cfg: Config, w: World, acts: seq<Action>)
    requires Fits(cfg, w)
    ensures Fits(cfg, RunMany(cfg, w, acts))
  {
    if acts != [] {
      var mid, a := RunMany(cfg, w, acts[..|acts| - 1]), acts[|acts| - 1];
      FitsMany(cfg, w, acts[..|acts| - 1]);
      StepFits(cfg, mid.(worker := None), a);
    }
  }

  lemma EarlierListsAreSimple(cfg: Config, w: World, acts: seq<Action>)
    requires Fits(cfg, w) && acts != [] && ListsAreSimple(RunMany(cfg, w, acts))
    ensures ListsAreSimple(RunMany(cfg, w, acts[..|acts| - 1]))
  {
    var mid := RunMany(cfg, w, acts[..|acts| - 1]);
    FitsMany(cfg, w, acts[..|acts| - 1]);
    forall p | p in mid.procs ensures NoRepeats(mid.procs[p].priceIds) {
      ListsPersist(cfg, mid.(worker := None), acts[|acts| - 1], p);
    }
  }

  // ---- a list with a repetition ---------------------------------------------------------------------

  const TWICE := O.OfferingIn("twice", None, [2], [3, 3, 8], ["web"])

  /** Offering 4 lists price 3 twice and price 8; offering 5 lists price 3. Both are being published. */
  lemma BothStarted(cfg: Config) returns (acts: seq<Action>)
    ensures var w := Run(cfg, acts);
            && w.procs == map[6 := Proc(4, [2], [3, 3, 8], At(LockPrices), false),
               7 := Proc(5, [2], [3], At(LockPrices), false)]
            && 3 in w.prices.table && w.prices.table[3] == P.Priced(Witness.MONTHLY, false, None)
  {
    var acts0 := PlansDrafted(cfg);
    var a, b := Publish(4, 6, true), Publish(5, 7, true);
    acts := (acts0 + [a]) + [b];
    Witness.Then(cfg, acts0, a);
    Witness.Then(cfg, acts0 + [a], b);
  }

  lemma PlansDrafted(cfg: Config) returns (acts: seq<Action>)
    ensures var w := Run(cfg, acts);
            && w.procs == map[] && w.used == {1, 2, 3, 4, 5, 8}
            && w.offerings.table == map[4 := O.Offering(TWICE, O.DRAFT, None, None),
               5 := O.Offering(Witness.PLAN, O.DRAFT, None, None)]
            && 3 in w.prices.table && w.prices.table[3] == P.Priced(Witness.MONTHLY, false, None)
  {
    var acts0 := SecondPrice(cfg);
    var b, c := CreateOffering(4, TWICE), CreateOffering(5, Witness.PLAN);
    acts := (acts0 + [b]) + [c];
    Witness.Then(cfg, acts0, b);
    Witness.Then(cfg, acts0 + [b], c);
  }

  lemma SecondPrice(cfg: Config) returns (acts: seq<Action>)
    ensures var w := Run(cfg, acts);
            && w.procs == map[] && w.used == {1, 2, 3, 8} && w.offerings == O.EMPTY
            && w.specs.table.Keys == {2} && w.prices.table.Keys == {3, 8}
            && w.prices.table[3] == P.Priced(Witness.MONTHLY, false, None)
  {
    var acts0 := Witness.CatalogueStocked(cfg);
    var a := PriceAdmin(P.Create(8, P.PriceIn("setup", 10, "once", P.USD)));
    acts := acts0 + [a];
    Witness.Then(cfg, acts0, a);
  }

  lemma Then(cfg: Config, w: World, acts: seq<Action>, a: Action) returns (acts': seq<Action>)
    ensures RunMany(cfg, w, acts') == ExecMany(cfg, RunMany(cfg, w, acts), a)
  {
    acts' := acts + [a];
    assert acts'[..|acts|] == acts;
  }

  /** Where the two processes stand, and whether price 3 is locked, and by whom. */
  ghost predicate Stand(w: World, six: Token, seven: Token, locked: bool, holder: Option<Id>) {
    && w.procs == map[6 := Proc(4, [2], [3, 3, 8], six, false), 7 := Proc(5, [2], [3], seven, locked)]
    && 3 in w.prices.table && w.prices.table[3].locked == holder.Some? && w.prices.table[3].lockedBy == holder
  }

  lemma SixStarts(cfg: Config, w: World)
    requires Stand(w, At(LockPrices), At(LockPrices), false, None)
    ensures Stand(ExecMany(cfg, w, Task(6, Delivered, 0)), Locking(0), At(LockPrices), false, None)
  {
  }

  lemma SixLocks(cfg: Config, w: World)
    requires Stand(w, Locking(0), At(LockPrices), false, None)
    ensures Stand(ExecMany(cfg, w, Task(6, Delivered, 0)), Locking(1), At(LockPrices), false, Some(6))
  {
  }

  lemma SixLocksAgain(cfg: Config, w: World)
    requires Stand(w, Locking(1), At(LockPrices), false, Some(6))
    ensures Stand(ExecMany(cfg, w, Task(6, Delivered, 0)), Locking(2), At(LockPrices), false, Some(6))
  {
  }

  lemma SixIsRefused(cfg: Config, w: World)
    requires Stand(w, Locking(2), At(LockPrices), false, Some(6))
    ensures Stand(ExecMany(cfg, w, Task(6, Refused, 0)), RollingBack(2, 0), At(LockPrices), false, Some(6))
  {
  }

  lemma SixUnlocks(cfg: Config, w: World)
    requires Stand(w, RollingBack(2, 0), At(LockPrices), false, Some(6))
    ensures Stand(ExecMany(cfg, w, Task(6, Delivered, 0)), RollingBack(2, 1), At(LockPrices), false, None)
  {
  }

  /** The second rollback call of process 6 frees the price from under process 7. */
  lemma SixUnlocksAgain(cfg: Config, w: World)
    requires Stand(w, RollingBack(2, 1), At(ValidateSpecs), true, Some(7))
    ensures Stand(ExecMany(cfg, w, Task(6, Delivered, 0)), RollingBack(2, 2), At(ValidateSpecs), true, None)
  {
  }

  /** Process 6 locks price 3 twice, and its request for price 8 is refused. */
  lemma SixFails(cfg: Config, w: World) returns (acts: seq<Action>)
    requires Stand(w, At(LockPrices), At(LockPrices), false, None)
    ensures Stand(RunMany(cfg, w, acts), RollingBack(2, 1), At(LockPrices), false, None)
  {
    var a := Task(6, Delivered, 0);
    acts := [];
    SixStarts(cfg, w);
    acts := Then(cfg, w, acts, a);
    SixLocks(cfg, RunMany(cfg, w, acts));
    acts := Then(cfg, w, acts, a);
    SixLocksAgain(cfg, RunMany(cfg, w, acts));
    acts := Then(cfg, w, acts, a);
    SixIsRefused(cfg, RunMany(cfg, w, acts));
    acts := Then(cfg, w, acts, Task(6, Refused, 0));
    SixUnlocks(cfg, RunMany(cfg, w, acts));
    acts := Then(cfg, w, acts, a);
  }

  lemma SevenStarts(cfg: Config, w: World)
    requires Stand(w, RollingBack(2, 1), At(LockPrices), false, None)
    ensures Stand(ExecMany(cfg, w, Task(7, Delivered, 0)), RollingBack(2, 1), Locking(0), false, None)
  {
  }

  lemma SevenLocks(cfg: Config, w: World)
    requires Stand(w, RollingBack(2, 1), Locking(0), false, None)
    ensures Stand(ExecMany(cfg, w, Task(7, Delivered, 0)), RollingBack(2, 1), Locking(1), false, Some(7))
  {
  }

  lemma SevenCompletes(cfg: Config, w: World)
    requires Stand(w, RollingBack(2, 1), Locking(1), false, Some(7))
    ensures Stand(ExecMany(cfg, w, Task(7, Delivered, 0)), RollingBack(2, 1), At(ValidateSpecs), true, Some(7))
  {
  }

  /** With two workers and a repeated id the rollback of one saga unlocks a price twice, the second time from
      under the saga that locked it in between: even with the flow routed to Revert and no fault but a refused
      lock request. */
  lemma RepeatedIdStealsPrice() returns (cfg: Config, acts: seq<Action>, more: seq<Action>)
    ensures cfg == Config(ToRevert, false, false, false, false)
    ensures var w := RunMany(cfg, Run(cfg, acts), more);
            && 7 in w.procs && InPossession(w.procs[7]) && w.procs[7].priceIds == [3]
            && 3 in w.prices.table && !w.prices.table[3].locked
  {
    cfg := Config(ToRevert, false, false, false, false);
    acts := BothStarted(cfg);
    var w, a := Run(cfg, acts), Task(7, Delivered, 0);
    more := SixFails(cfg, w);
    SevenStarts(cfg, RunMany(cfg, w, more));
    more := Then(cfg, w, more, a);
    SevenLocks(cfg, RunMany(cfg, w, more));
    more := Then(cfg, w, more, a);
    SevenCompletes(cfg, RunMany(cfg, w, more));
    more := Then(cfg, w, more, a);
    SixUnlocksAgain(cfg, RunMany(cfg, w, more));
    more := Then(cfg, w, more, Task(6, Delivered, 0));
  }
}

/** The gateway's circuit breaker under overlapping calls. */
module Breaker {
  import opened Common

  datatype CircuitState = CLOSED | OPEN | HALF_OPEN

  datatype Breaker = Breaker(state: CircuitState, failCount: nat, lastFailure: Option<real>)

  datatype Settings = Settings(failMax: int, resetTimeout: real)

  const FRESH := Breaker(CLOSED, 0, None)

  // ---- the three critical sections --------------------------------------------------------

  /** _before_call: the new breaker, and whether the call may go ahead. */
  function Before(c: Settings, b: Breaker, now: real): (Breaker, bool)
    requires b.state == OPEN ==> b.lastFailure.Some?
  {
    if b.state != OPEN then (b, true)
    else if now - b.lastFailure.value > c.resetTimeout then (b.(state := HALF_OPEN), true)
    else (b, false)
  }

  function Success(b: Breaker): Breaker {
    match b.state
    case HALF_OPEN => b.(state := CLOSED, failCount := 0)
    case CLOSED => b.(failCount := 0)
    case OPEN => b
  }

  function Failure(c: Settings, b: Breaker, now: real): Breaker {
    Breaker(if b.state == HALF_OPEN || b.failCount + 1 >= c.failMax then OPEN else b.state,
            b.failCount + 1, Some(now))
  }

  // ---- the log of one breaker --------------------------------------------------------------

  /** What each critical section leaves in the log: the state it found, and the time. */
  datatype Entry =
    | Admitted(found: CircuitState, at: real)
    | Rejected(at: real)
    | Succeeded(found: CircuitState)
    | Failed(found: CircuitState, at: real)

  /** Failures recorded since the last success recorded while CLOSED or HALF_OPEN. */
  function Streak(log: seq<Entry>): nat {
    if log == [] then 0
    else
      var rest := Streak(log[..|log| - 1]);
      match log[|log| - 1]
      case Failed(_, _) => rest + 1
      case Succeeded(found) => if found == OPEN then rest else 0
      case _ => rest
  }

  function LastFailure(log: seq<Entry>): Option<real> {
    if log == [] then None
    else if log[|log| - 1].Failed? then Some(log[|log| - 1].at)
    else LastFailure(log[..|log| - 1])
  }

  ghost predicate Refines(c: Settings, b: Breaker, log: seq<Entry>) {
    && b.failCount == Streak(log)
    && b.lastFailure == LastFailure(log)
    && (b.state == CLOSED <==> b.failCount < c.failMax)
    && (b.state != CLOSED ==> b.lastFailure.Some?)
  }

  lemma LogGrows(log: seq<Entry>, e: Entry)
    ensures (log + [e])[..|log|] == log
    ensures Streak(log + [e]) == (match e
                                  case Failed(_, _) => Streak(log) + 1
                                  case Succeeded(found) => if found == OPEN then Streak(log) else 0
                                  case _ => Streak(log))
    ensures LastFailure(log + [e]) == if e.Failed? then Some(e.at) else LastFailure(log)
  {
  }

  /** Each critical section keeps the breaker in step with its log. */
  lemma SectionsRefine(c: Settings, b: Breaker, log: seq<Entry>, now: real)
    requires c.failMax >= 1 && Refines(c, b, log)
    ensures Refines(c, Before(c, b, now).0, log + [Admitted(b.state, now)]) && Refines(c, b, log + [Rejected(now)])
    ensures Refines(c, Success(b), log + [Succeeded(b.state)])
    ensures Refines(c, Failure(c, b, now), log + [Failed(b.state, now)])
  {
  }

  class AsyncCircuitBreaker {
    const settings: Settings
    var state: CircuitState
    var failCount: nat
    var lastFailureTime: Option<real>
    ghost var log: seq<Entry>

    ghost function Value(): Breaker reads this { Breaker(state, failCount, lastFailureTime) }

    ghost predicate Valid() reads this { settings.failMax >= 1 && Refines(settings, Value(), log) }

    constructor (failMax: int, resetTimeout: real)
      requires failMax >= 1
      ensures Valid() && Value() == FRESH && log == [] && settings == Settings(failMax, resetTimeout)
    {
      settings := Settings(failMax, resetTimeout);
      state, failCount, lastFailureTime, log := CLOSED, 0, None, [];
    }

    /** First critical section of a call: it is let in unless the circuit is OPEN and reset_timeout has not passed
        since the last failure. Letting one in makes an OPEN circuit HALF_OPEN; nothing else changes. */
    method BeforeCall(now: real) returns (admitted: bool)
      requires Valid()
      modifies this
      ensures Valid()
      ensures (Value(), admitted) == Before(settings, old(Value()), now)
      ensures log == old(log) + [if admitted then Admitted(old(state), now) else Rejected(now)]
      ensures old(state) != OPEN || old(lastFailureTime).Some?
      ensures admitted <==> old(state) != OPEN || now - old(lastFailureTime).value > settings.resetTimeout
      ensures state == if admitted && old(state) == OPEN then HALF_OPEN else old(state)
      ensures failCount == old(failCount) && lastFailureTime == old(lastFailureTime)
    {
      admitted := true;
      SectionsRefine(settings, Value(), log, now);
      var found := state;
      if state == OPEN {
        if now - lastFailureTime.value > settings.resetTimeout {
          state := HALF_OPEN;
        } else {
          admitted := false;
        }
      }
      log := log + [if admitted then Admitted(found, now) else Rejected(now)];
    }

    /** Second critical section of a call whose function returned. */
    method OnSuccess()
      requires Valid()
      modifies this
      ensures Valid()
      ensures Value() == Success(old(Value())) && log == old(log) + [Succeeded(old(state))]
      ensures state == if old(state) == HALF_OPEN then CLOSED else old(state)
      ensures lastFailureTime == old(lastFailureTime)
      ensures failCount == if old(state) == OPEN then old(failCount) else 0
    {
      var found := state;
      SectionsRefine(settings, Value(), log, 0.0);
      if state == HALF_OPEN {
        state, failCount := CLOSED, 0;
      } else if state == CLOSED {
        failCount := 0;
      }
      log := log + [Succeeded(found)];
    }

    /** Second critical section of a call whose function raised. */
    method OnFailure(now: real)
      requires Valid()
      modifies this
      ensures Valid()
      ensures Value() == Failure(settings, old(Value()), now) && log == old(log) + [Failed(old(state), now)]
      ensures failCount == old(failCount) + 1 && lastFailureTime == Some(now)
      ensures state == if old(state) == HALF_OPEN || failCount >= settings.failMax then OPEN else old(state)
    {
      var found := state;
      SectionsRefine(settings, Value(), log, now);
      failCount := failCount + 1;
      lastFailureTime := Some(now);
      if state == HALF_OPEN || failCount >= settings.failMax { state := OPEN; }
      log := log + [Failed(found, now)];
    }
  }

  // ---- any interleaving of calls -----------------------------------------------------------

  /** One scheduling step: a call enters, or a call in flight returns, raises or is cancelled. */
  datatype Step = Enter(call: Id, now: real) | Return(call: Id) | Raise(call: Id, now: real) | Cancel(call: Id)

  datatype World = World(breaker: Breaker, inFlight: set<Id>, clock: real, log: seq<Entry>)

  function Now(w: World, t: real): real { if t < w.clock then w.clock else t }

  /** The clock never goes back; a step of a call that is not where the step says is no step. */
  function Exec(c: Settings, w: World, step: Step): World
    requires w.breaker.state == OPEN ==> w.breaker.lastFailure.Some?
  {
    match step
    case Enter(call, t) =>
      var now := Now(w, t);
      if call in w.inFlight then w
      else
        var (b, admitted) := Before(c, w.breaker, now);
        if admitted then World(b, w.inFlight + {call}, now, w.log + [Admitted(w.breaker.state, now)])
        else World(b, w.inFlight, now, w.log + [Rejected(now)])
    case Return(call) =>
      if call !in w.inFlight then w
      else World(Success(w.breaker), w.inFlight - {call}, w.clock, w.log + [Succeeded(w.breaker.state)])
    case Raise(call, t) =>
      var now := Now(w, t);
      if call !in w.inFlight then w
      else World(Failure(c, w.breaker, now), w.inFlight - {call}, now, w.log + [Failed(w.breaker.state, now)])
    case Cancel(call) => w.(inFlight := w.inFlight - {call})
  }

  /** An admission in a state other than CLOSED comes more than the reset timeout after the latest
      failure recorded before it. */
  ghost predicate Quiet(c: Settings, log: seq<Entry>) {
    forall i :: 0 <= i < |log| ==> QuietAfter(c, log[..i], log[i])
  }

  ghost predicate QuietAfter(c: Settings, before: seq<Entry>, e: Entry) {
    e.Admitted? && e.found != CLOSED ==>
      LastFailure(before).Some? && e.at - LastFailure(before).value > c.resetTimeout
  }

  ghost predicate Inv(c: Settings, w: World) {
    && c.failMax >= 1
    && Refines(c, w.breaker, w.log)
    && (w.breaker.lastFailure.Some? ==> w.breaker.lastFailure.value <= w.clock)
    && (w.breaker.state == HALF_OPEN ==> w.clock - w.breaker.lastFailure.value > c.resetTimeout)
    && Quiet(c, w.log)
  }

  lemma LogAppend(c: Settings, log: seq<Entry>, e: Entry)
    requires Quiet(c, log) && QuietAfter(c, log, e)
    ensures Quiet(c, log + [e])
  {
    var log' := log + [e];
    forall i | 0 <= i < |log'| ensures QuietAfter(c, log'[..i], log'[i]) {
      if i < |log| {
        assert log'[..i] == log[..i] && log'[i] == log[i];
        assert QuietAfter(c, log[..i], log[i]);
      } else {
        assert log'[..i] == log;
      }
    }
  }

  lemma EnterKeepsInv(c: Settings, w: World, call: Id, t: real)
    requires Inv(c, w)
    ensures Inv(c, Exec(c, w, Enter(call, t)))
  {
    var now := Now(w, t);
    if call !in w.inFlight {
      SectionsRefine(c, w.breaker, w.log, now);
      if Before(c, w.breaker, now).1 {
        LogGrows(w.log, Admitted(w.breaker.state, now));
        AdmittedIsQuiet(c, w, now);
        LogAppend(c, w.log, Admitted(w.breaker.state, now));
      } else {
        LogGrows(w.log, Rejected(now));
        LogAppend(c, w.log, Rejected(now));
      }
    }
  }

  /** A call let in while the circuit is not closed comes late enough. */
  lemma AdmittedIsQuiet(c: Settings, w: World, now: real)
    requires Inv(c, w) && now >= w.clock && Before(c, w.breaker, now).1
    ensures QuietAfter(c, w.log, Admitted(w.breaker.state, now))
  {
  }

  lemma ReturnKeepsInv(c: Settings, w: World, call: Id)
    requires Inv(c, w)
    ensures Inv(c, Exec(c, w, Return(call)))
  {
    if call in w.inFlight {
      SectionsRefine(c, w.breaker, w.log, w.clock);
      LogGrows(w.log, Succeeded(w.breaker.state));
      LogAppend(c, w.log, Succeeded(w.breaker.state));
    }
  }

  lemma RaiseKeepsInv(c: Settings, w: World, call: Id, t: real)
    requires Inv(c, w)
    ensures Inv(c, Exec(c, w, Raise(call, t)))
  {
    var now := Now(w, t);
    if call in w.inFlight {
      SectionsRefine(c, w.breaker, w.log, now);
      LogGrows(w.log, Failed(w.breaker.state, now));
      LogAppend(c, w.log, Failed(w.breaker.state, now));
    }
  }

  lemma ExecKeepsInv(c: Settings, w: World, step: Step)
    requires Inv(c, w)
    ensures Inv(c, Exec(c, w, step))
  {
    match step
    case Enter(call, now) => EnterKeepsInv(c, w, call, now);
    case Return(call) => ReturnKeepsInv(c, w, call);
    case Raise(call, now) => RaiseKeepsInv(c, w, call, now);
    case Cancel(_) =>
  }

  /** Any interleaving of calls, from a fresh breaker. In every state reached: the failure count is
      the streak of the completion log, the circuit is closed exactly below fail_max, the time of the
      last failure is known whenever it is read (a precondition of Before), and every call admitted
      while the circuit was not closed started more than reset_timeout after the latest failure, late
      failures of calls that were in flight when it opened included. */
  ghost function Run(c: Settings, start: real, steps: seq<Step>): (w: World)
    requires c.failMax >= 1
    ensures Inv(c, w)
  {
    if steps == [] then World(FRESH, {}, start, [])
    else
      var before := Run(c, start, steps[..|steps| - 1]);
      var step := steps[|steps| - 1];
      ExecKeepsInv(c, before, step);
      Exec(c, before, step)
  }

  // ---- what a caller meets in a reached state ------------------------------------------------

  /** An entering call is let in if and only if the circuit is not OPEN, or more than reset_timeout has passed
      since the last failure in the log. A call let in finds the circuit CLOSED or makes it HALF_OPEN; one turned
      away leaves it OPEN; neither touches the count. */
  lemma AdmittedExactly(c: Settings, start: real, steps: seq<Step>, call: Id, t: real)
    requires c.failMax >= 1 && call !in Run(c, start, steps).inFlight
    ensures var w := Run(c, start, steps);
            var w', now := Exec(c, w, Enter(call, t)), if t < w.clock then w.clock else t;
            && (w.breaker.state == OPEN ==> LastFailure(w.log).Some?)
            && (call in w'.inFlight <==>
                  w.breaker.state != OPEN || now - LastFailure(w.log).value > c.resetTimeout)
            && w'.inFlight - {call} == w.inFlight
            && w'.breaker.state == (if w.breaker.state == OPEN && call in w'.inFlight then HALF_OPEN
                                    else w.breaker.state)
            && w'.breaker.failCount == w.breaker.failCount
  {
  }

  /** A call that returns closes the circuit with count 0, unless it finds it OPEN: then nothing changes. One
      that raises opens it if it was HALF_OPEN or the count reaches fail_max. */
  lemma CompletionDecides(c: Settings, start: real, steps: seq<Step>, call: Id, t: real)
    requires c.failMax >= 1 && call in Run(c, start, steps).inFlight
    ensures var w := Run(c, start, steps);
            var done, failed := Exec(c, w, Return(call)), Exec(c, w, Raise(call, t));
            && done.inFlight == failed.inFlight == w.inFlight - {call}
            && (if w.breaker.state == OPEN then done.breaker == w.breaker
                else done.breaker.state == CLOSED && done.breaker.failCount == 0)
            && failed.breaker.failCount == w.breaker.failCount + 1
            && (failed.breaker.state == OPEN <==>
                  w.breaker.state != CLOSED || w.breaker.failCount + 1 >= c.failMax)
            && failed.breaker.lastFailure == Some(if t < w.clock then w.clock else t)
  {
  }

  /** The circuit recovers: from any reached state, a new call that enters more than reset_timeout after the last
      failure, if there was one, and returns, leaves it CLOSED with count 0. */
  lemma CircuitRecovers(c: Settings, start: real, steps: seq<Step>, call: Id, t: real)
    requires c.failMax >= 1 && call !in Run(c, start, steps).inFlight
    requires var w := Run(c, start, steps);
             w.clock <= t && (LastFailure(w.log).Some? ==> t - LastFailure(w.log).value > c.resetTimeout)
    ensures var b := Run(c, start, steps + [Enter(call, t), Return(call)]).breaker;
            b.state == CLOSED && b.failCount == 0
  {
    var entered := steps + [Enter(call, t)];
    assert entered[..|steps|] == steps;
    assert steps + [Enter(call, t), Return(call)] == entered + [Return(call)];
    assert (entered + [Return(call)])[..|entered|] == entered;
    AdmittedExactly(c, start, steps, call, t);
    CompletionDecides(c, start, entered, call, t);
  }

  /** fail_max >= 1 is needed exactly: a fresh breaker refines its empty log if and only if it holds. */
  lemma FreshBreakerNeedsPositiveFailMax(c: Settings)
    ensures Refines(c, FRESH, []) <==> c.failMax >= 1
  {
  }
}

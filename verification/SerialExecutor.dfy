/**
 * The serial executor as it is built: a chain of promises, each fulfilled or rejected, with a
 * handler for either case. It refines the operation queue whatever its operations return or throw.
 */
module SerialExecutors {
  import opened Collections
  import Q = OperationQueues

  /** `None` is the value `undefined`. */
  datatype Outcome = Fulfilled(value: Option<nat>) | Rejected(error: nat)

  /** What a handler does when the promise it waits for settles. */
  datatype Handler =
    | RunOperation(operation: nat)
    | ReturnUndefined
    | Release(kind: Q.Kind)

  /** `Passing`: the `finally` handler has run, and the outcome it passes on has yet to settle the promise. */
  datatype State = Waiting | Running | Passing(outcome: Outcome) | Settled(outcome: Outcome)

  /** `on.then(fulfilled, rejected)`; the first promise is the resolved one. */
  datatype Promise = Promise(on: Option<nat>, fulfilled: Handler, rejected: Handler, state: State)

  datatype Executor = Executor(promises: seq<Promise>, kinds: seq<Q.Kind>, queue: nat, turns: int, maintenance: int)

  const RESOLVED: Promise := Promise(None, ReturnUndefined, ReturnUndefined, Settled(Fulfilled(None)))

  const IDLE: Executor := Executor([RESOLVED], [], 0, 0, 0)

  function Counted(x: Executor, kind: Q.Kind, change: int): Executor {
    if kind == Q.Turn then x.(turns := x.turns + change) else x.(maintenance := x.maintenance + change)
  }

  function Then(on: nat, fulfilled: Handler, rejected: Handler): Promise {
    Promise(Some(on), fulfilled, rejected, Waiting)
  }

  /** The promises that `run` makes: `result`, what it returns to the caller, and the new `queue`. */
  function ResultOf(i: nat): nat { 3 * i + 1 }

  function ReturnedOf(i: nat): nat { 3 * i + 2 }

  function QueueAfter(i: nat): nat { 3 * i + 3 }

  /** `run`: the count, `queue.then(operation, operation)`, the new queue, and `result.finally`. */
  function Submitted(x: Executor, kind: Q.Kind): Executor {
    var n := |x.promises|;
    Counted(x, kind, 1).(
      promises := x.promises + [Then(x.queue, RunOperation(|x.kinds|), RunOperation(|x.kinds|)),
                                Then(n, Release(kind), Release(kind)),
                                Then(n, ReturnUndefined, ReturnUndefined)],
      kinds := x.kinds + [kind], queue := n + 2)
  }

  function WithState(x: Executor, p: nat, state: State): Executor
    requires p < |x.promises|
  {
    x.(promises := x.promises[p := x.promises[p].(state := state)])
  }

  /** The promise that `p` waits for has settled. */
  predicate CanReact(x: Executor, p: nat) {
    && p < |x.promises| && x.promises[p].state == Waiting
    && x.promises[p].on.Some? && x.promises[p].on.value < |x.promises|
    && x.promises[x.promises[p].on.value].state.Settled?
  }

  /** One of the two handlers runs, chosen by the outcome; `finally` passes the outcome on. */
  function Reacted(x: Executor, p: nat): Executor
    requires CanReact(x, p)
  {
    var outcome := x.promises[x.promises[p].on.value].state.outcome;
    match (if outcome.Fulfilled? then x.promises[p].fulfilled else x.promises[p].rejected)
    case RunOperation(_) => WithState(x, p, Running)
    case ReturnUndefined => WithState(x, p, Settled(Fulfilled(None)))
    case Release(kind) => Counted(WithState(x, p, Passing(outcome)), kind, -1)
  }

  predicate CanEnd(x: Executor, p: nat) {
    p < |x.promises| && x.promises[p].state == Running
  }

  predicate CanPass(x: Executor, p: nat) {
    p < |x.promises| && x.promises[p].state.Passing?
  }

  function Passed(x: Executor, p: nat): Executor
    requires CanPass(x, p)
  {
    WithState(x, p, Settled(x.promises[p].state.outcome))
  }

  datatype Event =
    | Submit(kind: Q.Kind)
    | React(promise: nat)
    | Pass(passing: nat)
    | End(running: nat, outcome: Outcome)

  function Step(x: Executor, e: Event): Executor {
    match e
    case Submit(kind) => Submitted(x, kind)
    case React(p) => if CanReact(x, p) then Reacted(x, p) else x
    case Pass(p) => if CanPass(x, p) then Passed(x, p) else x
    case End(p, outcome) => if CanEnd(x, p) then WithState(x, p, Settled(outcome)) else x
  }

  function Run(x: Executor, events: seq<Event>): Executor
    decreases |events|
  {
    if events == [] then x else Run(Step(x, events[0]), events[1..])
  }

  // ---------------------------------------------------------------- the shape of the chain

  /** The queue promise that operation `i` was chained to. */
  function QueueBefore(i: nat): nat { 3 * i }

  /** The three promises of operation `i` wait for what `run` made them wait for. */
  predicate Chained(x: Executor, i: nat)
    requires QueueAfter(i) < |x.promises| && i < |x.kinds|
  {
    var result, returned, queue := x.promises[ResultOf(i)], x.promises[ReturnedOf(i)], x.promises[QueueAfter(i)];
    && result.(state := Waiting) == Then(QueueBefore(i), RunOperation(i), RunOperation(i))
    && returned.(state := Waiting) == Then(ResultOf(i), Release(x.kinds[i]), Release(x.kinds[i]))
    && queue.(state := Waiting) == Then(ResultOf(i), ReturnUndefined, ReturnUndefined)
  }

  /** What each of them can have become, and when. */
  predicate InStep(x: Executor, i: nat)
    requires QueueAfter(i) < |x.promises|
  {
    var result, returned := x.promises[ResultOf(i)].state, x.promises[ReturnedOf(i)].state;
    var queue := x.promises[QueueAfter(i)].state;
    && !result.Passing? && (result != Waiting ==> x.promises[QueueBefore(i)].state.Settled?)
    && (returned != Waiting ==>
          result.Settled? && (returned == Passing(result.outcome) || returned == Settled(result.outcome)))
    && (queue != Waiting ==> result.Settled? && queue == Settled(Fulfilled(None)))
  }

  ghost predicate Shape(x: Executor) {
    && |x.promises| == 3 * |x.kinds| + 1 && x.queue == 3 * |x.kinds|
    && x.promises[0] == RESOLVED
    && forall i: nat | i < |x.kinds| :: Chained(x, i) && InStep(x, i)
  }

  /** Which operation a promise belongs to, and which of its three it is. */
  lemma PromiseIndex(x: Executor, p: nat)
    requires Shape(x) && 0 < p < |x.promises|
    ensures
      var i := (p - 1) / 3;
      i < |x.kinds| && (p == ResultOf(i) || p == ReturnedOf(i) || p == QueueAfter(i)) && Chained(x, i) && InStep(x, i)
  {
    var i := (p - 1) / 3;
    assert p == 3 * i + 1 + (p - 1) % 3;
    assert Chained(x, i) && InStep(x, i);
  }

  lemma SubmitKeepsShape(x: Executor, kind: Q.Kind)
    requires Shape(x)
    ensures Shape(Submitted(x, kind))
  {
    var t := Submitted(x, kind);
    forall i: nat | i < |t.kinds| ensures Chained(t, i) && InStep(t, i) {
      if i < |x.kinds| {
        assert Chained(x, i) && InStep(x, i);
        assert t.promises[QueueBefore(i)] == x.promises[QueueBefore(i)];
      }
    }
  }

  /** One promise leaves its state for a later one; nothing that others rely on is taken back. */
  predicate Advances(x: Executor, p: nat, state: State)
    requires p < |x.promises|
  {
    !x.promises[p].state.Settled? && (state == Running ==> x.promises[p].state == Waiting) && state != Waiting
  }

  lemma AdvanceKeepsShape(x: Executor, p: nat, state: State)
    requires Shape(x) && 0 < p < |x.promises| && Advances(x, p, state)
    requires InStep(WithState(x, p, state), (p - 1) / 3)
    ensures Shape(WithState(x, p, state))
  {
    var t := WithState(x, p, state);
    PromiseIndex(x, p);
    forall i: nat | i < |t.kinds| ensures Chained(t, i) && InStep(t, i) {
      assert Chained(x, i) && InStep(x, i);
    }
  }

  lemma SamePromises(x: Executor, t: Executor)
    requires Shape(x) && t.promises == x.promises && t.kinds == x.kinds && t.queue == x.queue
    ensures Shape(t)
  {
    forall i: nat | i < |t.kinds| ensures Chained(t, i) && InStep(t, i) {
      assert Chained(x, i) && InStep(x, i);
    }
  }

  lemma StepKeepsShape(x: Executor, e: Event)
    requires Shape(x)
    ensures Shape(Step(x, e))
  {
    match e {
      case Submit(kind) => SubmitKeepsShape(x, kind);
      case React(p) =>
        if CanReact(x, p) {
          PromiseIndex(x, p);
          var state := Reacted(x, p).promises[p].state;
          AdvanceKeepsShape(x, p, state);
          SamePromises(WithState(x, p, state), Reacted(x, p));
        }
      case Pass(p) =>
        if CanPass(x, p) {
          PromiseIndex(x, p);
          AdvanceKeepsShape(x, p, Settled(x.promises[p].state.outcome));
        }
      case End(p, outcome) =>
        if CanEnd(x, p) {
          PromiseIndex(x, p);
          AdvanceKeepsShape(x, p, Settled(outcome));
        }
    }
  }

  // ---------------------------------------------------------------- refinement of the operation queue

  function PhaseOf(x: Executor, i: nat): Q.Phase
    requires QueueAfter(i) < |x.promises|
  {
    match x.promises[ResultOf(i)].state
    case Waiting => Q.Queued
    case Running => Q.Running
    case _ => if x.promises[ReturnedOf(i)].state != Waiting then Q.Released else Q.Settled
  }

  function OperationOf(x: Executor, i: nat): Q.Operation
    requires QueueAfter(i) < |x.promises| && i < |x.kinds|
  {
    Q.Operation(x.kinds[i], PhaseOf(x, i), if i == 0 then None else Some(i - 1))
  }

  /** The operation queue that a chain of promises stands for. */
  ghost function Abstract(x: Executor): (q: Q.Executor)
    requires Shape(x)
  {
    Q.Executor(seq(|x.kinds|, i requires 0 <= i < |x.kinds| => OperationOf(x, i)),
               if x.kinds == [] then None else Some(|x.kinds| - 1), x.turns, x.maintenance)
  }

  ghost predicate Inv(x: Executor) {
    Shape(x) && Q.Inv(Abstract(x))
  }

  /** The event of the operation queue behind an event of the chain; settling the queue promise is none. */
  function EventOf(x: Executor, e: Event): Option<Q.Event> {
    match e
    case Submit(kind) => Some(Q.Submitted(kind))
    case React(p) =>
      if !CanReact(x, p) || p % 3 == 0 then None
      else if p % 3 == 1 then Some(Q.Started(p / 3)) else Some(Q.FinallyRan(p / 3))
    case Pass(_) => None
    case End(p, _) => if CanEnd(x, p) then Some(Q.Finished(p / 3)) else None
  }

  lemma SubmitRefines(x: Executor, kind: Q.Kind)
    requires Inv(x)
    ensures Shape(Submitted(x, kind)) && Abstract(Submitted(x, kind)) == Q.Submit(Abstract(x), kind)
  {
    SubmitKeepsShape(x, kind);
    var t := Submitted(x, kind);
    forall i: nat | i < |x.kinds| ensures OperationOf(t, i) == OperationOf(x, i) {
      assert Chained(x, i);
    }
    assert Abstract(t).operations == Q.Submit(Abstract(x), kind).operations;
  }

  lemma OthersStay(x: Executor, t: Executor, p: nat, i: nat)
    requires Shape(x) && Shape(t) && t.kinds == x.kinds && i < |x.kinds|
    requires p == ResultOf(i) || p == ReturnedOf(i) || p == QueueAfter(i)
    requires forall q: nat | q < |x.promises| && q != p :: t.promises[q] == x.promises[q]
    ensures forall k: nat | k < |x.kinds| && k != i :: OperationOf(t, k) == OperationOf(x, k)
  {
  }

  /** Settling the queue promise moves no operation. */
  lemma QueueReactRefines(x: Executor, i: nat)
    requires Inv(x) && i < |x.kinds| && CanReact(x, QueueAfter(i))
    ensures Shape(Reacted(x, QueueAfter(i))) && Abstract(Reacted(x, QueueAfter(i))) == Abstract(x)
  {
    StepKeepsShape(x, React(QueueAfter(i)));
    assert Chained(x, i);
    var t := Reacted(x, QueueAfter(i));
    OthersStay(x, t, QueueAfter(i), i);
    assert Abstract(t).operations == Abstract(x).operations;
  }

  lemma ResultReactRefines(x: Executor, i: nat)
    requires Inv(x) && i < |x.kinds| && CanReact(x, ResultOf(i))
    ensures Shape(Reacted(x, ResultOf(i)))
    ensures Abstract(Reacted(x, ResultOf(i))) == Q.Step(Abstract(x), Q.Started(i))
  {
    StepKeepsShape(x, React(ResultOf(i)));
    assert Chained(x, i);
    var t := Reacted(x, ResultOf(i));
    OthersStay(x, t, ResultOf(i), i);
    StartIsAllowed(x, i);
    assert Abstract(t).operations == Q.At(Abstract(x), i, Q.Running).operations;
  }

  lemma ReturnedReactRefines(x: Executor, i: nat)
    requires Inv(x) && i < |x.kinds| && CanReact(x, ReturnedOf(i))
    ensures Shape(Reacted(x, ReturnedOf(i)))
    ensures Abstract(Reacted(x, ReturnedOf(i))) == Q.Step(Abstract(x), Q.FinallyRan(i))
  {
    StepKeepsShape(x, React(ReturnedOf(i)));
    assert Chained(x, i);
    var t := Reacted(x, ReturnedOf(i));
    OthersStay(x, t, ReturnedOf(i), i);
    assert Abstract(x).operations[i].phase == Q.Settled;
    assert Abstract(t).operations == Q.At(Abstract(x), i, Q.Released).operations;
  }

  /** A handler that runs moves one operation or none. */
  lemma ReactRefines(x: Executor, p: nat)
    requires Inv(x) && CanReact(x, p)
    ensures Shape(Reacted(x, p))
    ensures Abstract(Reacted(x, p))
         == if p % 3 == 0 then Abstract(x)
            else if p % 3 == 1 then Q.Step(Abstract(x), Q.Started(p / 3)) else Q.Step(Abstract(x), Q.FinallyRan(p / 3))
  {
    PromiseIndex(x, p);
    var i := (p - 1) / 3;
    if p % 3 == 0 {
      QueueReactRefines(x, i);
    } else if p % 3 == 1 {
      ResultReactRefines(x, i);
    } else {
      ReturnedReactRefines(x, i);
    }
  }

  /** When the queue promise before it has settled, either way, the operation before it has ended. */
  lemma StartIsAllowed(x: Executor, i: nat)
    requires Inv(x) && i < |x.kinds| && CanReact(x, ResultOf(i))
    ensures Q.CanStart(Abstract(x), i)
  {
    assert Chained(x, i);
    if i > 0 {
      assert QueueBefore(i) == QueueAfter(i - 1);
      assert InStep(x, i - 1);
    }
  }

  lemma EndRefines(x: Executor, p: nat, outcome: Outcome)
    requires Inv(x) && CanEnd(x, p)
    ensures Shape(WithState(x, p, Settled(outcome)))
    ensures Abstract(WithState(x, p, Settled(outcome))) == Q.Step(Abstract(x), Q.Finished(p / 3))
  {
    StepKeepsShape(x, End(p, outcome));
    PromiseIndex(x, p);
    var i := (p - 1) / 3;
    var t := WithState(x, p, Settled(outcome));
    assert p == ResultOf(i) && p / 3 == i;
    forall k: nat | k < |x.kinds| && k != i ensures OperationOf(t, k) == OperationOf(x, k) {
      assert Chained(x, k);
    }
    assert Abstract(t).operations == Q.At(Abstract(x), i, Q.Settled).operations;
  }

  /** The promise that a caller was given settles, and no operation moves. */
  lemma PassRefines(x: Executor, p: nat)
    requires Inv(x) && CanPass(x, p)
    ensures Shape(Passed(x, p)) && Abstract(Passed(x, p)) == Abstract(x)
  {
    StepKeepsShape(x, Pass(p));
    PromiseIndex(x, p);
    var i, t := (p - 1) / 3, Passed(x, p);
    assert p == ReturnedOf(i);
    OthersStay(x, t, p, i);
    assert Abstract(t).operations == Abstract(x).operations;
  }

  /** Every event of the promise chain is an event of the operation queue, or none. */
  lemma StepRefines(x: Executor, e: Event)
    requires Inv(x)
    ensures Inv(Step(x, e))
    ensures Abstract(Step(x, e))
         == if EventOf(x, e).Some? then Q.Step(Abstract(x), EventOf(x, e).value) else Abstract(x)
  {
    match e {
      case Submit(kind) => SubmitRefines(x, kind);
      case React(p) => if CanReact(x, p) { ReactRefines(x, p); }
      case Pass(p) => if CanPass(x, p) { PassRefines(x, p); }
      case End(p, outcome) => if CanEnd(x, p) { EndRefines(x, p, outcome); }
    }
    if EventOf(x, e).Some? {
      Q.StepKeepsInv(Abstract(x), EventOf(x, e).value);
    }
  }

  lemma {:induction false} RunKeepsInv(x: Executor, events: seq<Event>)
    requires Inv(x)
    ensures Inv(Run(x, events))
    decreases |events|
  {
    if events != [] {
      StepRefines(x, events[0]);
      RunKeepsInv(Step(x, events[0]), events[1..]);
    }
  }

  lemma IdleInv()
    ensures Inv(IDLE)
  {
  }

  // ---------------------------------------------------------------- outcomes

  predicate EndsWith(events: seq<Event>, p: nat, outcome: Outcome) {
    exists k :: 0 <= k < |events| && events[k] == End(p, outcome)
  }

  lemma {:induction false} SettledStays(x: Executor, events: seq<Event>, p: nat)
    requires p < |x.promises| && x.promises[p].state.Settled?
    ensures p < |Run(x, events).promises| && Run(x, events).promises[p] == x.promises[p]
    decreases |events|
  {
    if events != [] {
      SettledStays(Step(x, events[0]), events[1..], p);
    }
  }

  predicate HasResult(x: Executor, i: nat) {
    i < |x.kinds| && QueueAfter(i) < |x.promises| && x.promises[ResultOf(i)].state.Settled?
  }

  /** Only the end of an operation settles its result. */
  lemma OnlyItsEndSettles(x: Executor, e: Event, i: nat)
    requires Inv(x) && HasResult(Step(x, e), i) && !HasResult(x, i)
    ensures e == End(ResultOf(i), Step(x, e).promises[ResultOf(i)].state.outcome)
  {
    if i < |x.kinds| {
      assert Chained(x, i);
    } else {
      assert e.Submit?;
      SubmitKeepsShape(x, e.kind);
    }
  }

  lemma {:induction false} ResultsAreOwn(x: Executor, events: seq<Event>, i: nat)
    requires Inv(x) && HasResult(Run(x, events), i) && !HasResult(x, i)
    ensures EndsWith(events, ResultOf(i), Run(x, events).promises[ResultOf(i)].state.outcome)
    decreases |events|
  {
    var y := Step(x, events[0]);
    StepRefines(x, events[0]);
    if HasResult(y, i) {
      OnlyItsEndSettles(x, events[0], i);
      SettledStays(y, events[1..], ResultOf(i));
    } else {
      ResultsAreOwn(y, events[1..], i);
      var outcome := Run(x, events).promises[ResultOf(i)].state.outcome;
      var k :| 0 <= k < |events[1..]| && events[1..][k] == End(ResultOf(i), outcome);
      assert events[k + 1] == End(ResultOf(i), outcome);
    }
  }

  /** What a caller is given for operation `i`, once it is given anything. */
  predicate ReturnsOwnOutcome(x: Executor, events: seq<Event>, i: nat) {
    i < |x.kinds| && QueueAfter(i) < |x.promises| && x.promises[ReturnedOf(i)].state.Settled? ==>
      EndsWith(events, ResultOf(i), x.promises[ReturnedOf(i)].state.outcome)
  }

  /** The promise the next operation is chained to is never rejected. */
  predicate QueueNeverRejects(x: Executor, i: nat) {
    i < |x.kinds| && QueueAfter(i) < |x.promises| && x.promises[QueueAfter(i)].state.Settled? ==>
      x.promises[QueueAfter(i)].state.outcome == Fulfilled(None)
  }

  /**
   * In every run, whatever the operations return or throw: at most one runs, all submitted before
   * it have ended, the executor is idle exactly when every operation's `finally` handler has run, no
   * failure reaches the queue, and every caller is given the outcome of its own operation.
   */
  lemma EveryExecutorRun(events: seq<Event>)
    ensures
      var x := Run(IDLE, events);
      && Inv(x)
      && (!Q.IsBusy(Abstract(x)) <==> Q.AllReleased(Abstract(x)))
      && (forall i: nat, j: nat | Q.Runs(Abstract(x), i) && Q.Runs(Abstract(x), j) :: i == j)
      && (forall i: nat, j: nat | i < j && Q.Runs(Abstract(x), j) :: Q.Ended(Abstract(x).operations[i]))
      && (forall i: nat :: QueueNeverRejects(x, i))
      && (forall i: nat :: ReturnsOwnOutcome(x, events, i))
  {
    IdleInv();
    RunKeepsInv(IDLE, events);
    var x := Run(IDLE, events);
    Q.BusyMeansOpen(Abstract(x));
    forall i: nat, j: nat | Q.Runs(Abstract(x), i) && Q.Runs(Abstract(x), j) ensures i == j {
      Q.OneAtATime(Abstract(x), i);
      Q.OneAtATime(Abstract(x), j);
    }
    forall i: nat ensures QueueNeverRejects(x, i) && ReturnsOwnOutcome(x, events, i) {
      if i < |x.kinds| {
        assert InStep(x, i);
        if x.promises[ReturnedOf(i)].state.Settled? {
          ResultsAreOwn(IDLE, events, i);
        }
      }
    }
  }

  lemma RunFour(x: Executor, a: Event, b: Event, c: Event, d: Event)
    ensures Run(x, [a, b, c, d]) == Step(Step(Step(Step(x, a), b), c), d)
  {
    RunTwo(Step(Step(x, a), b), c, d);
    assert [a, b, c, d][1..] == [b, c, d] && [b, c, d][1..] == [c, d];
    assert Run(Step(x, a), [b, c, d]) == Run(Step(Step(x, a), b), [c, d]);
  }

  /** Idle does not mean reported: a caller's promise can still be unsettled when no operation is open. */
  lemma IdleBeforeTheCallerKnows(kind: Q.Kind, outcome: Outcome)
    ensures
      var x := Run(IDLE, [Submit(kind), React(ResultOf(0)), End(ResultOf(0), outcome), React(ReturnedOf(0))]);
      Inv(x) && !Q.IsBusy(Abstract(x)) && |x.promises| == 4 && x.promises[ReturnedOf(0)].state == Passing(outcome)
  {
    var a, b, c, d := Submit(kind), React(ResultOf(0)), End(ResultOf(0), outcome), React(ReturnedOf(0));
    IdleInv();
    RunKeepsInv(IDLE, [a, b, c, d]);
    RunFour(IDLE, a, b, c, d);
    var x := Step(IDLE, a);
    assert CanReact(x, 1) && x.promises[1].fulfilled == RunOperation(0);
  }

  // ---------------------------------------------------------------- outcomes do not matter

  /** The same event, apart from how an operation ends. */
  predicate SameButOutcome(e: Event, f: Event) {
    match e
    case End(p, _) => f.End? && f.running == p
    case _ => e == f
  }

  predicate SameButOutcomes(events: seq<Event>, others: seq<Event>) {
    |events| == |others| && forall k | 0 <= k < |events| :: SameButOutcome(events[k], others[k])
  }

  /** The same chain, apart from the outcomes of what has settled. */
  predicate SameChain(x: Executor, y: Executor) {
    && x.(promises := []) == y.(promises := []) && |x.promises| == |y.promises|
    && forall p: nat | p < |x.promises| :: SamePromise(x.promises[p], y.promises[p])
  }

  predicate SamePromise(a: Promise, b: Promise) {
    && a.(state := Waiting) == b.(state := Waiting)
    && (a.state == b.state || (a.state.Settled? && b.state.Settled?) || (a.state.Passing? && b.state.Passing?))
  }

  /** Both handlers of a promise in the chain do the same. */
  lemma HandlersAgree(x: Executor, p: nat)
    requires Inv(x) && 0 < p < |x.promises|
    ensures x.promises[p].fulfilled == x.promises[p].rejected
  {
    PromiseIndex(x, p);
  }

  lemma ReactIsBlind(x: Executor, y: Executor, p: nat)
    requires Inv(x) && Inv(y) && SameChain(x, y)
    ensures SameChain(Step(x, React(p)), Step(y, React(p)))
  {
    if p < |x.promises| {
      assert SamePromise(x.promises[p], y.promises[p]);
      if x.promises[p].on.Some? && x.promises[p].on.value < |x.promises| {
        assert SamePromise(x.promises[x.promises[p].on.value], y.promises[x.promises[p].on.value]);
      }
      assert CanReact(x, p) <==> CanReact(y, p);
      if CanReact(x, p) {
        HandlersAgree(x, p);
      }
    }
  }

  lemma StepIsBlind(x: Executor, y: Executor, e: Event, f: Event)
    requires Inv(x) && Inv(y) && SameChain(x, y) && SameButOutcome(e, f)
    ensures SameChain(Step(x, e), Step(y, f))
  {
    match e {
      case Submit(_) =>
      case React(p) => ReactIsBlind(x, y, p);
      case Pass(p) =>
        if p < |x.promises| {
          assert SamePromise(x.promises[p], y.promises[p]);
        }
      case End(p, _) =>
        if p < |x.promises| {
          assert SamePromise(x.promises[p], y.promises[p]);
        }
    }
  }

  /**
   * Let every operation of a run end differently: order, phases and counters are the same. Both
   * handlers of each `then` doing the same is what makes this so.
   */
  lemma {:induction false} OutcomesDoNotMatter(x: Executor, y: Executor, events: seq<Event>, others: seq<Event>)
    requires Inv(x) && Inv(y) && SameChain(x, y) && SameButOutcomes(events, others)
    ensures Inv(Run(x, events)) && Inv(Run(y, others))
    ensures SameChain(Run(x, events), Run(y, others))
    ensures Abstract(Run(x, events)) == Abstract(Run(y, others))
    decreases |events|
  {
    if events == [] {
      SameChainSameQueue(x, y);
    } else {
      StepIsBlind(x, y, events[0], others[0]);
      StepRefines(x, events[0]);
      StepRefines(y, others[0]);
      assert forall k | 0 <= k < |events[1..]| :: events[1..][k] == events[k + 1] && others[1..][k] == others[k + 1];
      OutcomesDoNotMatter(Step(x, events[0]), Step(y, others[0]), events[1..], others[1..]);
    }
  }

  lemma SameChainSameQueue(x: Executor, y: Executor)
    requires Shape(x) && Shape(y) && SameChain(x, y)
    ensures Abstract(x) == Abstract(y)
  {
    forall i: nat | i < |x.kinds| ensures OperationOf(x, i) == OperationOf(y, i) {
      assert SamePromise(x.promises[ResultOf(i)], y.promises[ResultOf(i)]);
      assert SamePromise(x.promises[ReturnedOf(i)], y.promises[ReturnedOf(i)]);
    }
    assert Abstract(x).operations == Abstract(y).operations;
  }

  /** However an operation has ended, the queue promise after it settles. */
  lemma QueueFollows(x: Executor, i: nat)
    requires Inv(x) && HasResult(x, i) && i + 1 < |x.kinds| && x.promises[ResultOf(i + 1)].state == Waiting
    ensures
      var y := Step(x, React(QueueAfter(i)));
      && Inv(y) && |y.promises| == |x.promises| && y.kinds == x.kinds
      && y.promises[QueueAfter(i)].state.Settled? && y.promises[ResultOf(i + 1)].state == Waiting
  {
    StepRefines(x, React(QueueAfter(i)));
    assert Chained(x, i) && InStep(x, i);
  }

  lemma NextStarts(y: Executor, i: nat)
    requires Inv(y) && i + 1 < |y.kinds|
    requires y.promises[QueueAfter(i)].state.Settled? && y.promises[ResultOf(i + 1)].state == Waiting
    ensures
      var z := Step(y, React(ResultOf(i + 1)));
      Inv(z) && Q.Runs(Abstract(z), i + 1)
  {
    StepRefines(y, React(ResultOf(i + 1)));
    assert Chained(y, i + 1);
    assert Step(y, React(ResultOf(i + 1))).promises[ResultOf(i + 1)].state == Running;
  }

  /** Once an operation has ended, however it ended, two handlers later the next one runs. */
  lemma FailureBlocksNothing(x: Executor, i: nat)
    requires Inv(x) && HasResult(x, i) && i + 1 < |x.kinds| && x.promises[ResultOf(i + 1)].state == Waiting
    ensures
      var y := Run(x, [React(QueueAfter(i)), React(ResultOf(i + 1))]);
      Inv(y) && Q.Runs(Abstract(y), i + 1)
  {
    QueueFollows(x, i);
    NextStarts(Step(x, React(QueueAfter(i))), i);
    RunTwo(x, React(QueueAfter(i)), React(ResultOf(i + 1)));
  }

  lemma EndedIsSettled(x: Executor, i: nat, outcome: Outcome)
    requires Inv(x) && i < |x.kinds| && CanEnd(x, ResultOf(i))
    ensures
      var y := Step(x, End(ResultOf(i), outcome));
      && Inv(y) && y.kinds == x.kinds && CanReact(y, ReturnedOf(i))
      && y.promises[ResultOf(i)].state == Settled(outcome)
  {
    StepRefines(x, End(ResultOf(i), outcome));
    assert Chained(x, i) && InStep(x, i);
  }

  /** What an operation ends with reaches its caller: the `finally` handler runs, then the caller's promise settles. */
  lemma OutcomeReachesTheCaller(x: Executor, i: nat, outcome: Outcome)
    requires Inv(x) && i < |x.kinds| && CanEnd(x, ResultOf(i))
    ensures
      var y := Step(Step(Step(x, End(ResultOf(i), outcome)), React(ReturnedOf(i))), Pass(ReturnedOf(i)));
      Inv(y) && ReturnedOf(i) < |y.promises| && y.promises[ReturnedOf(i)].state == Settled(outcome)
  {
    EndedIsSettled(x, i, outcome);
    var y := Step(x, End(ResultOf(i), outcome));
    assert Chained(y, i);
    StepRefines(y, React(ReturnedOf(i)));
    StepRefines(Step(y, React(ReturnedOf(i))), Pass(ReturnedOf(i)));
  }

  lemma RunTwo(x: Executor, e: Event, f: Event)
    ensures Run(x, [e, f]) == Step(Step(x, e), f)
  {
    assert [e, f][1..] == [f] && [f][1..] == [];
    assert Run(Step(x, e), [f]) == Run(Step(Step(x, e), f), []);
  }

  // ---------------------------------------------------------------- the executor object

  /** The closure's variables. */
  class SerialExecutor {
    var state: Executor

    constructor ()
      ensures state == IDLE && Inv(state)
    {
      IdleInv();
      state := IDLE;
    }

    method IsBusy() returns (busy: bool)
      requires Inv(state)
      ensures busy <==> !Q.AllReleased(Abstract(state))
    {
      Q.BusyMeansOpen(Abstract(state));
      busy := state.turns > 0 || state.maintenance > 0;
    }

    /** The promise returned settles with what the operation does. */
    method Run(kind: Q.Kind) returns (returned: nat)
      requires Inv(state)
      modifies this
      ensures state == Step(old(state), Submit(kind)) && Inv(state)
      ensures Abstract(state) == Q.Submit(Abstract(old(state)), kind)
      ensures returned == ReturnedOf(|old(state).kinds|)
    {
      StepRefines(state, Submit(kind));
      if kind == Q.Turn {
        state := state.(turns := state.turns + 1);
      } else {
        state := state.(maintenance := state.maintenance + 1);
      }
      var operation, result := |state.kinds|, |state.promises|;
      var queue := state.queue;
      state := state.(kinds := state.kinds + [kind],
                      promises := state.promises + [Then(queue, RunOperation(operation), RunOperation(operation))]);
      returned := |state.promises|;
      state := state.(promises := state.promises + [Then(result, Release(kind), Release(kind))]);
      state := state.(promises := state.promises + [Then(result, ReturnUndefined, ReturnUndefined)],
                      queue := result + 2);
      assert state.promises == old(state).promises
        + [Then(queue, RunOperation(operation), RunOperation(operation)), Then(result, Release(kind), Release(kind)),
           Then(result, ReturnUndefined, ReturnUndefined)];
    }
  }
}

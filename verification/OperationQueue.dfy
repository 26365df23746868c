/**
 * What a serial executor is for, without its promises: operations that start in submission order,
 * one at a time, and counters that tell when none is left. The promise chain refines this.
 */
module OperationQueues {
  import opened Collections

  datatype Kind = Turn | Maintenance

  /** `Settled` operations have ended, one way or the other; only their `finally` handler is outstanding. */
  datatype Phase = Queued | Running | Settled | Released

  /** `after` is the operation whose result this one is chained to. */
  datatype Operation = Operation(kind: Kind, phase: Phase, after: Option<nat>)

  /** `tail` is the end of the promise chain. */
  datatype Executor = Executor(operations: seq<Operation>, tail: Option<nat>, turns: int, maintenance: int)

  const IDLE: Executor := Executor([], None, 0, 0)

  predicate IsBusy(x: Executor) {
    x.turns > 0 || x.maintenance > 0
  }

  predicate Ended(o: Operation) {
    o.phase == Settled || o.phase == Released
  }

  function At(x: Executor, i: nat, phase: Phase): Executor
    requires i < |x.operations|
  {
    x.(operations := x.operations[i := x.operations[i].(phase := phase)])
  }

  /** `run`: count, chain, move the tail. */
  function Submit(x: Executor, kind: Kind): Executor {
    Executor(x.operations + [Operation(kind, Queued, x.tail)], Some(|x.operations|),
             if kind == Turn then x.turns + 1 else x.turns,
             if kind == Maintenance then x.maintenance + 1 else x.maintenance)
  }

  /** The promise that operation `i` is chained to has settled, either way. */
  predicate CanStart(x: Executor, i: nat) {
    && i < |x.operations| && x.operations[i].phase == Queued
    && (x.operations[i].after.Some? ==>
          x.operations[i].after.value < |x.operations| && Ended(x.operations[x.operations[i].after.value]))
  }

  predicate Runs(x: Executor, i: nat) {
    i < |x.operations| && x.operations[i].phase == Running
  }

  predicate CanRelease(x: Executor, i: nat) {
    i < |x.operations| && x.operations[i].phase == Settled
  }

  function Release(x: Executor, i: nat): Executor
    requires CanRelease(x, i)
  {
    var kind := x.operations[i].kind;
    At(x, i, Released).(turns := if kind == Turn then x.turns - 1 else x.turns,
                        maintenance := if kind == Maintenance then x.maintenance - 1 else x.maintenance)
  }

  datatype Event =
    | Submitted(kind: Kind)
    | Started(i: nat)
    | Finished(i: nat)
    | FinallyRan(i: nat)

  function Step(x: Executor, e: Event): Executor {
    match e
    case Submitted(kind) => Submit(x, kind)
    case Started(i) => if CanStart(x, i) then At(x, i, Running) else x
    case Finished(i) => if Runs(x, i) then At(x, i, Settled) else x
    case FinallyRan(i) => if CanRelease(x, i) then Release(x, i) else x
  }

  // ---------------------------------------------------------------- the invariant

  /** Operations of this kind that are not released. */
  function Open(operations: seq<Operation>, kind: Kind): nat {
    if operations == [] then 0
    else (if operations[0].kind == kind && operations[0].phase != Released then 1 else 0) + Open(operations[1..], kind)
  }

  /** Each operation is chained to the one before it, and the tail is the last. */
  ghost predicate Chained(x: Executor) {
    && (forall i: nat | i < |x.operations| :: x.operations[i].after == if i == 0 then None else Some(i - 1))
    && x.tail == if x.operations == [] then None else Some(|x.operations| - 1)
  }

  /** Everything before an operation that has started has ended. */
  ghost predicate InOrder(x: Executor) {
    forall i: nat, j: nat | i < j < |x.operations| && x.operations[j].phase != Queued :: Ended(x.operations[i])
  }

  ghost predicate Counted(x: Executor) {
    x.turns == Open(x.operations, Turn) && x.maintenance == Open(x.operations, Maintenance)
  }

  ghost predicate Inv(x: Executor) {
    Chained(x) && InOrder(x) && Counted(x)
  }

  lemma {:induction false} OpenSnoc(operations: seq<Operation>, o: Operation, kind: Kind)
    ensures Open(operations + [o], kind)
         == Open(operations, kind) + if o.kind == kind && o.phase != Released then 1 else 0
  {
    if operations != [] {
      OpenSnoc(operations[1..], o, kind);
      assert (operations + [o])[1..] == operations[1..] + [o];
    }
  }

  lemma {:induction false} OpenUpdate(operations: seq<Operation>, i: nat, phase: Phase, kind: Kind)
    requires i < |operations| && operations[i].phase != Released
    ensures Open(operations[i := operations[i].(phase := phase)], kind)
         == Open(operations, kind) - if operations[i].kind == kind && phase == Released then 1 else 0
  {
    var updated := operations[i := operations[i].(phase := phase)];
    if i > 0 {
      OpenUpdate(operations[1..], i - 1, phase, kind);
      assert updated[1..] == operations[1..][i - 1 := operations[i].(phase := phase)];
    } else {
      assert updated[1..] == operations[1..];
    }
  }

  lemma {:induction false} OpenMeans(operations: seq<Operation>, kind: Kind)
    ensures Open(operations, kind) == 0
        <==> forall i: nat | i < |operations| && operations[i].kind == kind :: operations[i].phase == Released
  {
    if operations != [] {
      OpenMeans(operations[1..], kind);
      if Open(operations, kind) == 0 {
        forall i: nat | i < |operations| && operations[i].kind == kind ensures operations[i].phase == Released {
          if i > 0 {
            assert operations[i] == operations[1..][i - 1];
          }
        }
      }
    }
  }

  lemma SubmittingKeepsInv(x: Executor, kind: Kind)
    requires Inv(x)
    ensures Inv(Submit(x, kind))
  {
    OpenSnoc(x.operations, Operation(kind, Queued, x.tail), Turn);
    OpenSnoc(x.operations, Operation(kind, Queued, x.tail), Maintenance);
  }

  /** A phase moves on: only releasing changes what is counted. */
  lemma MovingKeepsCount(x: Executor, i: nat, phase: Phase)
    requires Counted(x) && i < |x.operations| && x.operations[i].phase != Released
    ensures phase != Released ==> Counted(At(x, i, phase))
    ensures x.operations[i].phase == Settled && phase == Released ==> Counted(Release(x, i))
  {
    OpenUpdate(x.operations, i, phase, Turn);
    OpenUpdate(x.operations, i, phase, Maintenance);
  }

  lemma StepKeepsInv(x: Executor, e: Event)
    requires Inv(x)
    ensures Inv(Step(x, e))
  {
    match e {
      case Submitted(kind) => SubmittingKeepsInv(x, kind);
      case Started(i) =>
        if CanStart(x, i) { StartingKeepsOrder(x, i); MovingKeepsCount(x, i, Running); }
      case Finished(i) =>
        if Runs(x, i) { MovingKeepsCount(x, i, Settled); }
      case FinallyRan(i) =>
        if CanRelease(x, i) { MovingKeepsCount(x, i, Released); }
    }
  }

  /** The operation that a starting one is chained to has ended, and so has everything before that. */
  lemma StartingKeepsOrder(x: Executor, i: nat)
    requires Chained(x) && InOrder(x) && CanStart(x, i)
    ensures InOrder(At(x, i, Running))
  {
    forall k: nat | k < i ensures Ended(x.operations[k]) {
      assert Ended(x.operations[i - 1]);
    }
  }

  // ---------------------------------------------------------------- the promises

  ghost predicate AllReleased(x: Executor) {
    forall i: nat | i < |x.operations| :: x.operations[i].phase == Released
  }

  /** The counters tell exactly whether an operation is queued, running or has its `finally` outstanding. */
  lemma BusyMeansOpen(x: Executor)
    requires Counted(x)
    ensures !IsBusy(x) <==> AllReleased(x)
  {
    OpenMeans(x.operations, Turn);
    OpenMeans(x.operations, Maintenance);
    if !IsBusy(x) {
      forall i: nat | i < |x.operations| ensures x.operations[i].phase == Released {
        assert x.operations[i].kind == Turn || x.operations[i].kind == Maintenance;
      }
    }
  }

  /** At any time at most one operation runs; it comes after all that ended and before all that are queued. */
  lemma OneAtATime(x: Executor, i: nat)
    requires Inv(x) && Runs(x, i)
    ensures forall k: nat | k < i :: Ended(x.operations[k])
    ensures forall k: nat | i < k < |x.operations| :: x.operations[k].phase == Queued
  {
    forall k: nat | i < k < |x.operations| ensures x.operations[k].phase == Queued {
      assert x.operations[k].phase != Queued ==> Ended(x.operations[i]);
    }
  }

  /** Exactly the first queued operation can start, and only when none runs: a failed one blocks nothing. */
  lemma StartsInSubmissionOrder(x: Executor, i: nat)
    requires Inv(x) && i < |x.operations| && x.operations[i].phase == Queued
    ensures CanStart(x, i) <==> forall k: nat | k < i :: Ended(x.operations[k])
  {
    if CanStart(x, i) && i > 0 {
      forall k: nat | k < i ensures Ended(x.operations[k]) {
        assert Ended(x.operations[i - 1]);
      }
    }
  }
}

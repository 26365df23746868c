/**
 * The voice agent as a client of the serial executor. A turn or a compaction may open an agent
 * session and then works on the session it found; starting or resuming a conversation replaces
 * the session unless the executor is busy.
 */
module VoiceSessions {
  import opened Collections
  import X = OperationQueues

  /** A conversation (a session manager) and an agent session are known by number. */
  datatype SessionState =
    | Unbound(conversation: nat, prompt: string)
    | Active(session: nat, conversation: nat, prompt: string)

  /** What the running operation is doing, and the conversation it started on. */
  datatype Work =
    | NoWork
    | Opening(operation: nat, conversation: nat)
    | Using(operation: nat, conversation: nat, session: nat)
    | Remote(operation: nat)

  datatype Agent = Agent(
    executor: X.Executor,
    state: SessionState,
    sessions: nat,
    conversations: nat,
    disposed: set<nat>,
    attached: bool,
    work: Work)

  datatype Event =
    | Submit(kind: X.Kind)
    | StartTurn(operation: nat, parsed: Option<string>)
    | StartCompaction(operation: nat)
    | SessionOpened
    | Finish
    | FinallyRan(operation: nat)
    | StartFresh
    | Resume(found: bool)
    | AttachTask
    | DetachTask

  const NEW: Agent := Agent(X.IDLE, Unbound(0, ""), 0, 1, {}, false, NoWork)

  /** `replaceWithUnbound`: an active session is disposed. */
  function ReplaceWithUnbound(a: Agent, conversation: nat, prompt: string): Agent {
    a.(disposed := if a.state.Active? then a.disposed + {a.state.session} else a.disposed,
       state := Unbound(conversation, prompt))
  }

  /** The synchronous part of `newSession`. */
  function BeginSession(a: Agent, i: nat, prompt: string): Agent {
    ReplaceWithUnbound(a, a.state.conversation, prompt).(work := Opening(i, a.state.conversation))
  }

  function UseSession(a: Agent, i: nat): Agent
    requires a.state.Active?
  {
    a.(work := Using(i, a.state.conversation, a.state.session))
  }

  /** The end of an operation, successful or not. */
  function End(a: Agent, i: nat): Agent {
    a.(executor := X.Step(a.executor, X.Finished(i)), work := NoWork)
  }

  predicate CanStart(a: Agent, i: nat, kind: X.Kind) {
    X.CanStart(a.executor, i) && a.executor.operations[i].kind == kind
  }

  function StartedTurn(a: Agent, i: nat, parsed: Option<string>): Agent {
    var b := a.(executor := X.Step(a.executor, X.Started(i)));
    if parsed.None? then End(b, i)
    else if a.attached then b.(work := Remote(i))
    else if a.state.Unbound? || a.state.prompt != parsed.value then BeginSession(b, i, parsed.value)
    else UseSession(b, i)
  }

  function StartedCompaction(a: Agent, i: nat): Agent {
    var b := a.(executor := X.Step(a.executor, X.Started(i)));
    if a.state.Unbound? then BeginSession(b, i, a.state.prompt) else UseSession(b, i)
  }

  /** A new conversation replaces the session; the remote task is detached first. */
  function Replaced(a: Agent): Agent {
    ReplaceWithUnbound(a.(attached := false), a.conversations, "").(conversations := a.conversations + 1)
  }

  function Step(a: Agent, e: Event): Agent {
    match e
    case Submit(kind) => a.(executor := X.Step(a.executor, X.Submitted(kind)))
    case StartTurn(i, parsed) => if CanStart(a, i, X.Turn) then StartedTurn(a, i, parsed) else a
    case StartCompaction(i) => if CanStart(a, i, X.Maintenance) then StartedCompaction(a, i) else a
    case SessionOpened =>
      if a.work.Opening? && a.state.Unbound? then
        UseSession(a.(state := Active(a.sessions, a.state.conversation, a.state.prompt), sessions := a.sessions + 1),
                   a.work.operation)
      else a
    case Finish => if a.work.NoWork? then a else End(a, a.work.operation)
    case FinallyRan(i) => a.(executor := X.Step(a.executor, X.FinallyRan(i)))
    case StartFresh => if X.IsBusy(a.executor) then a else Replaced(a)
    case Resume(found) =>
      if X.IsBusy(a.executor) then a else if found then Replaced(a) else a.(attached := false)
    case AttachTask => a.(attached := true)
    case DetachTask => a.(attached := false)
  }

  function Run(a: Agent, events: seq<Event>): Agent
    decreases |events|
  {
    if events == [] then a else Run(Step(a, events[0]), events[1..])
  }

  // ---------------------------------------------------------------- the invariant

  /** Sessions and conversations are numbered in order of creation, and the current one is not disposed. */
  ghost predicate SessionsOk(a: Agent) {
    && (forall s | s in a.disposed :: s < a.sessions)
    && a.state.conversation < a.conversations
    && (a.state.Active? ==> a.state.session < a.sessions && a.state.session !in a.disposed)
  }

  /** The running operation's session is the current one, on the conversation it started on. */
  ghost predicate WorkOk(a: Agent) {
    match a.work
    case NoWork => forall i: nat | i < |a.executor.operations| :: a.executor.operations[i].phase != X.Running
    case Remote(i) => X.Runs(a.executor, i)
    case Opening(i, c) => X.Runs(a.executor, i) && a.state.Unbound? && a.state.conversation == c
    case Using(i, c, s) => X.Runs(a.executor, i) && a.state.Active? && a.state.conversation == c && a.state.session == s
  }

  ghost predicate Inv(a: Agent) {
    X.Inv(a.executor) && SessionsOk(a) && WorkOk(a)
  }

  lemma StartedRuns(a: Agent, i: nat)
    requires X.Inv(a.executor) && X.CanStart(a.executor, i)
    ensures X.Inv(X.Step(a.executor, X.Started(i))) && X.Runs(X.Step(a.executor, X.Started(i)), i)
    ensures forall k: nat | k < |a.executor.operations| && k != i ::
      X.Step(a.executor, X.Started(i)).operations[k].phase != X.Running
  {
    X.StepKeepsInv(a.executor, X.Started(i));
    X.OneAtATime(X.Step(a.executor, X.Started(i)), i);
  }

  /** Nothing else runs, so ending the running operation leaves none. */
  lemma EndingLeavesNone(x: X.Executor, i: nat)
    requires X.Inv(x) && X.Runs(x, i)
    ensures X.Inv(X.Step(x, X.Finished(i)))
    ensures forall k: nat | k < |x.operations| :: X.Step(x, X.Finished(i)).operations[k].phase != X.Running
  {
    X.StepKeepsInv(x, X.Finished(i));
    X.OneAtATime(x, i);
  }

  lemma StartingKeepsInv(a: Agent, e: Event)
    requires Inv(a) && (e.StartTurn? || e.StartCompaction?)
    ensures Inv(Step(a, e))
  {
    var i := e.operation;
    if X.CanStart(a.executor, i) {
      StartedRuns(a, i);
      EndingLeavesNone(X.Step(a.executor, X.Started(i)), i);
    }
  }

  lemma ReplacingKeepsInv(a: Agent)
    requires Inv(a) && !X.IsBusy(a.executor)
    ensures Inv(Replaced(a)) && a.work.NoWork?
  {
    X.BusyMeansOpen(a.executor);
  }

  lemma StepKeepsInv(a: Agent, e: Event)
    requires Inv(a)
    ensures Inv(Step(a, e))
  {
    match e {
      case Submit(kind) => X.StepKeepsInv(a.executor, X.Submitted(kind));
      case StartTurn(_, _) => StartingKeepsInv(a, e);
      case StartCompaction(_) => StartingKeepsInv(a, e);
      case Finish =>
        if !a.work.NoWork? {
          EndingLeavesNone(a.executor, a.work.operation);
        }
      case FinallyRan(i) => X.StepKeepsInv(a.executor, X.FinallyRan(i));
      case StartFresh =>
        if !X.IsBusy(a.executor) { ReplacingKeepsInv(a); }
      case Resume(found) =>
        if !X.IsBusy(a.executor) { ReplacingKeepsInv(a); }
      case _ =>
    }
  }

  lemma {:induction false} RunKeepsInv(a: Agent, events: seq<Event>)
    requires Inv(a)
    ensures Inv(Run(a, events))
    decreases |events|
  {
    if events != [] {
      StepKeepsInv(a, events[0]);
      RunKeepsInv(Step(a, events[0]), events[1..]);
    }
  }

  // ---------------------------------------------------------------- the promises

  /** In every run, an operation's session is live, current and on the conversation the operation started on. */
  lemma EveryVoiceRun(events: seq<Event>)
    ensures
      var a := Run(NEW, events);
      && (a.work.Using? ==>
            && a.state == Active(a.work.session, a.work.conversation, a.state.prompt)
            && a.work.session !in a.disposed)
      && (a.work.Opening? ==> a.state == Unbound(a.work.conversation, a.state.prompt))
      && (forall i: nat | X.Runs(a.executor, i) :: !a.work.NoWork? && a.work.operation == i)
  {
    RunKeepsInv(NEW, events);
    var a := Run(NEW, events);
    forall i: nat | X.Runs(a.executor, i) ensures !a.work.NoWork? && a.work.operation == i {
      X.OneAtATime(a.executor, i);
    }
  }

  /** While an operation runs, no event whatever moves it to another conversation or session. */
  lemma RunningKeepsConversation(a: Agent, e: Event)
    requires Inv(a) && !a.work.NoWork?
    ensures Step(a, e).state.conversation == a.state.conversation && Step(a, e).state.prompt == a.state.prompt
    ensures Step(a, e).work.NoWork? || Step(a, e).work.operation == a.work.operation
    ensures a.work.Using? ==> Step(a, e).state == a.state && Step(a, e).disposed == a.disposed
  {
    var i := a.work.operation;
    assert X.Runs(a.executor, i);
    X.BusyMeansOpen(a.executor);
    X.OneAtATime(a.executor, i);
    if e.StartTurn? || e.StartCompaction? {
      RunningBlocksStarts(a.executor, i, e.operation);
    }
  }

  lemma RunningBlocksStarts(x: X.Executor, i: nat, k: nat)
    requires X.Inv(x) && X.Runs(x, i)
    ensures !X.CanStart(x, k)
  {
    X.OneAtATime(x, i);
    if X.CanStart(x, k) {
      X.StartsInSubmissionOrder(x, k);
    }
  }

  /** Which operations run, queue and settle: an agent moves its executor along exactly as its events say. */
  lemma ExecutorFollows(a: Agent, e: Event)
    ensures
      var x, y := a.executor, Step(a, e).executor;
      match e
      case Submit(kind) => y == X.Submit(x, kind)
      case FinallyRan(i) => y == X.Step(x, X.FinallyRan(i))
      case StartTurn(i, parsed) =>
        if X.CanStart(x, i) && x.operations[i].kind == X.Turn then
          (if parsed.Some? then y == X.At(x, i, X.Running) else y == X.At(x, i, X.Settled))
        else Step(a, e) == a
      case StartCompaction(i) =>
        if X.CanStart(x, i) && x.operations[i].kind == X.Maintenance then y == X.At(x, i, X.Running)
        else Step(a, e) == a
      case Finish => y == if a.work.NoWork? then x else X.Step(x, X.Finished(a.work.operation))
      case _ => y == x
  {
  }

  /** The operation of `i` has not ended at any point of the run. */
  predicate WorksAlong(a: Agent, events: seq<Event>, i: nat)
    decreases |events|
  {
    && !a.work.NoWork? && a.work.operation == i
    && (events != [] ==> WorksAlong(Step(a, events[0]), events[1..], i))
  }

  lemma {:induction false} WorkingKeepsPrompt(a: Agent, events: seq<Event>, i: nat)
    requires Inv(a) && WorksAlong(a, events, i)
    ensures Run(a, events).state.conversation == a.state.conversation
    ensures Run(a, events).state.prompt == a.state.prompt
    decreases |events|
  {
    if events != [] {
      RunningKeepsConversation(a, events[0]);
      StepKeepsInv(a, events[0]);
      WorkingKeepsPrompt(Step(a, events[0]), events[1..], i);
    }
  }

  /**
   * Whatever happens while a turn is at work without a remote task: it works on the conversation it
   * found and under its own system prompt, in the session it found or in one opened for it.
   */
  lemma TurnKeepsItsPrompt(a: Agent, i: nat, prompt: string, events: seq<Event>)
    requires Inv(a) && X.CanStart(a.executor, i) && a.executor.operations[i].kind == X.Turn && !a.attached
    requires WorksAlong(Step(a, StartTurn(i, Some(prompt))), events, i)
    ensures
      var b := Run(Step(a, StartTurn(i, Some(prompt))), events);
      b.state.conversation == a.state.conversation && b.state.prompt == prompt && !b.work.Remote?
  {
    var s := Step(a, StartTurn(i, Some(prompt)));
    StepKeepsInv(a, StartTurn(i, Some(prompt)));
    WorkingKeepsPrompt(s, events, i);
    StaysLocal(s, events, i);
  }

  lemma {:induction false} StaysLocal(a: Agent, events: seq<Event>, i: nat)
    requires Inv(a) && WorksAlong(a, events, i) && !a.work.Remote?
    ensures !Run(a, events).work.Remote?
    decreases |events|
  {
    if events != [] {
      StepKeepsInv(a, events[0]);
      RunningBlocksStarts(a.executor, i, if events[0].StartTurn? then events[0].operation else 0);
      StaysLocal(Step(a, events[0]), events[1..], i);
    }
  }

  lemma {:induction false} RunJoin(a: Agent, events: seq<Event>, more: seq<Event>)
    ensures Run(a, events + more) == Run(Run(a, events), more)
    decreases |events|
  {
    if events == [] {
      assert events + more == more;
    } else {
      assert (events + more)[1..] == events[1..] + more;
      RunJoin(Step(a, events[0]), events[1..], more);
    }
  }

  lemma RunSnoc(a: Agent, events: seq<Event>, e: Event)
    ensures Run(a, events + [e]) == Step(Run(a, events), e)
  {
    RunJoin(a, events, [e]);
    assert [e][1..] == [];
  }

  /**
   * The first turn of a new agent from its submission to its end, then a second one: both use one
   * session exactly when they have the same system prompt.
   */
  lemma TwoTurns(one: string, two: string) returns (events: seq<Event>)
    ensures
      var a := Run(NEW, events);
      && |a.executor.operations| == 2 && a.executor.operations[0].phase == X.Released
      && (if one == two then a.work == Using(1, 0, 0) && a.disposed == {} && a.state == Active(0, 0, one)
          else a.work == Opening(1, 0) && a.disposed == {0} && a.state == Unbound(0, two))
  {
    RunSnoc(NEW, [], Submit(X.Turn));
    events := [] + [Submit(X.Turn)];
    RunSnoc(NEW, events, StartTurn(0, Some(one)));
    events := events + [StartTurn(0, Some(one))];
    var x := X.Executor([X.Operation(X.Turn, X.Running, None)], Some(0), 1, 0);
    assert Run(NEW, events) == Agent(x, Unbound(0, one), 0, 1, {}, false, Opening(0, 0));
    RunSnoc(NEW, events, SessionOpened);
    events := events + [SessionOpened];
    RunSnoc(NEW, events, Finish);
    events := events + [Finish];
    RunSnoc(NEW, events, FinallyRan(0));
    events := events + [FinallyRan(0)];
    var y := X.Executor([X.Operation(X.Turn, X.Released, None)], Some(0), 0, 0);
    assert Run(NEW, events) == Agent(y, Active(0, 0, one), 1, 1, {}, false, NoWork);
    RunSnoc(NEW, events, Submit(X.Turn));
    events := events + [Submit(X.Turn)];
    RunSnoc(NEW, events, StartTurn(1, Some(two)));
    events := events + [StartTurn(1, Some(two))];
  }

  // ---------------------------------------------------------------- who answers a turn

  /** An event that can end an attachment. */
  predicate MayDetach(e: Event) {
    e.DetachTask? || e.StartFresh? || e.Resume?
  }

  lemma {:induction false} AttachmentStays(a: Agent, events: seq<Event>)
    ensures a.attached && (forall k | 0 <= k < |events| :: !MayDetach(events[k])) ==> Run(a, events).attached
    ensures !a.attached && AttachTask !in events ==> !Run(a, events).attached
    decreases |events|
  {
    if events != [] {
      AttachmentStays(Step(a, events[0]), events[1..]);
    }
  }

  /**
   * A turn goes to the remote task when one was attached and nothing since could detach it, and to
   * the agent's own session when the task was detached, or a conversation was started or resumed on
   * an idle executor, and none was attached since.
   */
  lemma TurnGoesToTheTask(a: Agent, e: Event, events: seq<Event>, i: nat, prompt: string)
    requires
      var b := Run(Step(a, e), events);
      X.CanStart(b.executor, i) && b.executor.operations[i].kind == X.Turn
    ensures
      var work := Step(Run(Step(a, e), events), StartTurn(i, Some(prompt))).work;
      && (e.AttachTask? && (forall k | 0 <= k < |events| :: !MayDetach(events[k])) ==> work == Remote(i))
      && ((e.DetachTask? || ((e.StartFresh? || e.Resume?) && !X.IsBusy(a.executor))) && AttachTask !in events ==>
            !work.Remote? && !work.NoWork?)
  {
    AttachmentStays(Step(a, e), events);
  }

  /** A new conversation begins exactly when nothing is queued, running or settling. */
  lemma FreshSessionIffIdle(a: Agent)
    requires Inv(a)
    ensures Step(a, StartFresh).state.conversation != a.state.conversation <==> X.AllReleased(a.executor)
    ensures Step(a, Resume(true)).state.conversation != a.state.conversation <==> X.AllReleased(a.executor)
  {
    X.BusyMeansOpen(a.executor);
  }

  /** The session that was active, if any, is disposed, and no other. */
  predicate SessionDisposed(a: Agent, b: Agent) {
    b.disposed == a.disposed + if a.state.Active? then {a.state.session} else {}
  }

  // ---------------------------------------------------------------- the agent object

  class VoiceAgent {
    var agent: Agent

    constructor ()
      ensures agent == NEW && Inv(agent)
    {
      agent := NEW;
    }

    method ReplaceWithUnboundState(conversation: nat, prompt: string)
      modifies this
      ensures agent == ReplaceWithUnbound(old(agent), conversation, prompt)
    {
      if agent.state.Active? {
        agent := agent.(disposed := agent.disposed + {agent.state.session});
      }
      agent := agent.(state := Unbound(conversation, prompt));
    }

    method StartFreshSession() returns (started: bool)
      requires Inv(agent)
      modifies this
      ensures agent == Step(old(agent), StartFresh) && Inv(agent)
      ensures started <==> X.AllReleased(old(agent).executor)
      ensures started ==> old(agent).work.NoWork? && agent.state == Unbound(old(agent).conversations, "")
      ensures started ==> !agent.attached && SessionDisposed(old(agent), agent)
      ensures !started ==> agent == old(agent)
    {
      StepKeepsInv(agent, StartFresh);
      X.BusyMeansOpen(agent.executor);
      if X.IsBusy(agent.executor) {
        return false;
      }
      agent := agent.(attached := false);
      ReplaceWithUnboundState(agent.conversations, "");
      agent := agent.(conversations := agent.conversations + 1);
      return true;
    }

    method ResumeSession(found: bool) returns (resumed: bool)
      requires Inv(agent)
      modifies this
      ensures agent == Step(old(agent), Resume(found)) && Inv(agent)
      ensures resumed <==> found && X.AllReleased(old(agent).executor)
      ensures resumed ==> agent.state == Unbound(old(agent).conversations, "") && SessionDisposed(old(agent), agent)
      ensures !resumed ==> agent.state == old(agent).state && agent.disposed == old(agent).disposed
      ensures agent.attached <==> old(agent).attached && !X.AllReleased(old(agent).executor)
    {
      StepKeepsInv(agent, Resume(found));
      X.BusyMeansOpen(agent.executor);
      if X.IsBusy(agent.executor) {
        return false;
      }
      agent := agent.(attached := false);
      if !found {
        return false;
      }
      ReplaceWithUnboundState(agent.conversations, "");
      agent := agent.(conversations := agent.conversations + 1);
      return true;
    }

    /** `newSession` up to its first await: the conversation stays, an active session is disposed. */
    method BeginNewSession(i: nat, prompt: string)
      modifies this
      ensures agent == BeginSession(old(agent), i, prompt)
    {
      var conversation := agent.state.conversation;
      ReplaceWithUnboundState(conversation, prompt);
      agent := agent.(work := Opening(i, conversation));
    }

    /** The operation of `runTurn` as the executor starts it; `parsed` is the turn's system prompt. */
    method BeginTurn(i: nat, parsed: Option<string>)
      requires Inv(agent) && CanStart(agent, i, X.Turn)
      modifies this
      ensures agent == Step(old(agent), StartTurn(i, parsed)) && Inv(agent)
      ensures agent.state.conversation == old(agent).state.conversation
      ensures parsed.None? ==> agent.work.NoWork? && agent.state == old(agent).state
      ensures parsed.Some? && old(agent).attached ==> agent.work == Remote(i) && agent.state == old(agent).state
      ensures parsed.Some? && !old(agent).attached ==>
        var state := old(agent).state;
        if state.Active? && state.prompt == parsed.value then
          agent.work == Using(i, state.conversation, state.session) && agent.state == state
        else
          && agent.work == Opening(i, state.conversation) && SessionDisposed(old(agent), agent)
          && agent.state == Unbound(state.conversation, parsed.value)
    {
      StepKeepsInv(agent, StartTurn(i, parsed));
      agent := agent.(executor := X.Step(agent.executor, X.Started(i)));
      if parsed.None? {
        agent := End(agent, i);
      } else if agent.attached {
        agent := agent.(work := Remote(i));
      } else if agent.state.Unbound? || agent.state.prompt != parsed.value {
        BeginNewSession(i, parsed.value);
      } else {
        agent := UseSession(agent, i);
      }
    }

    /** The operation of `compact` as the executor starts it. */
    method BeginCompaction(i: nat)
      requires Inv(agent) && CanStart(agent, i, X.Maintenance)
      modifies this
      ensures agent == Step(old(agent), StartCompaction(i)) && Inv(agent)
      ensures
        var state := old(agent).state;
        if state.Active? then
          agent.work == Using(i, state.conversation, state.session) && agent.state == state
        else
          agent.work == Opening(i, state.conversation) && agent.state == state
    {
      StepKeepsInv(agent, StartCompaction(i));
      agent := agent.(executor := X.Step(agent.executor, X.Started(i)));
      if agent.state.Unbound? {
        BeginNewSession(i, agent.state.prompt);
      } else {
        agent := UseSession(agent, i);
      }
    }
  }
}

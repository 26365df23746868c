/**
 * The client of a remote task: one connection at a time, requests matched to responses by ID,
 * numbered records, and operations that resume after an await. A `send` asks for the state, sends
 * its prompt, waits for a settled record numbered above the prompt's response and only then
 * fetches the answer. Between any two of its steps any number of other events can happen.
 */
module RemoteTasks {
  import opened Collections

  const MAX_RECORD_BYTES: nat := 1_000_000

  /** A JSON object from the wire, as far as the session looks at it. */
  datatype Record =
    | AgentSettled
    | Response(id: Option<nat>, success: bool, useful: bool)
    | OtherRecord

  datatype Parsed = Unparsable | NotAnObject | Object(record: Record)

  /** JSON.parse and the UTF-8 length. */
  datatype Env = Env(parse: string -> Parsed, size: string -> nat)

  /**
   * Where an operation stands. `number` is the number of the record that answered the request
   * `prompt`, `settled` that of the settled record that ended the waiting, `answer` that of the
   * record that answered the request `fetch` for the text, `state` that of the record that answered
   * the first request.
   */
  datatype Phase =
    | AwaitState(request: nat)
    | StateAnswered(query: nat, state: nat, ok: bool)
    | AwaitPrompt(state: nat, request: nat)
    | PromptAnswered(prompt: nat, number: nat, ok: bool)
    | Waiting(prompt: nat, number: nat)
    | Settled(prompt: nat, number: nat, settled: nat)
    | AwaitText(prompt: nat, number: nat, settled: nat, request: nat)
    | TextAnswered(prompt: nat, number: nat, settled: nat, fetch: nat, answer: nat, ok: bool)
    | Finished(prompt: nat, number: nat, settled: nat, fetch: nat, answer: nat)
    | AwaitOther(request: nat)
    | OtherAnswered(query: nat, reply: nat, ok: bool)
    | Failed

  /**
   * `log` holds every accepted record; the n-th has number n and came on connection `origins[n - 1]`.
   * `joined` holds the length of the log at each connection. `pending` gives the operation that waits.
   */
  datatype Session = Session(
    socket: Option<nat>,
    connections: nat,
    buffer: string,
    pending: map<nat, nat>,
    issued: nat,
    sequence: nat,
    lastSettled: Option<nat>,
    operations: seq<Phase>,
    log: seq<Record>,
    origins: seq<nat>,
    joined: seq<nat>)

  const INITIAL: Session := Session(None, 0, "", map[], 0, 0, None, [], [], [], [])

  predicate Awaits(p: Phase) {
    p.AwaitState? || p.AwaitPrompt? || p.AwaitText? || p.AwaitOther?
  }

  // ---------------------------------------------------------------- records

  /** The promise of the awaited request is resolved with record `n`. */
  function Answer(p: Phase, r: Record, n: nat): Phase
    requires r.Response?
  {
    match p
    case AwaitState(request) => StateAnswered(request, n, r.success && r.useful)
    case AwaitPrompt(_, request) => PromptAnswered(request, n, r.success)
    case AwaitText(prompt, number, settled, fetch) =>
      TextAnswered(prompt, number, settled, fetch, n, r.success && r.useful)
    case AwaitOther(request) => OtherAnswered(request, n, r.success)
    case _ => p
  }

  function AnswerAt(operations: seq<Phase>, i: nat, r: Record, n: nat): seq<Phase>
    requires r.Response?
  {
    if i < |operations| then operations[i := Answer(operations[i], r, n)] else operations
  }

  /** The settled record `n` ends the waiting. */
  function Wake(p: Phase, n: nat): Phase {
    if p.Waiting? then Settled(p.prompt, p.number, n) else p
  }

  function WakeAll(operations: seq<Phase>, n: nat): (r: seq<Phase>)
    ensures |r| == |operations|
    ensures forall i | 0 <= i < |r| :: r[i] == Wake(operations[i], n)
  {
    seq(|operations|, i requires 0 <= i < |operations| => Wake(operations[i], n))
  }

  /** One record: number it, remember a settled one, resolve the request it answers, notify the listeners. */
  function Numbered(s: Session, r: Record): Session {
    s.(sequence := s.sequence + 1, log := s.log + [r],
       origins := s.origins + [if s.socket.Some? then s.socket.value else 0],
       lastSettled := if r.AgentSettled? then Some(s.sequence + 1) else s.lastSettled)
  }

  function Resolved(s: Session, r: Record): Session {
    if r.Response? && r.id.Some? && r.id.value in s.pending then
      s.(pending := s.pending - {r.id.value},
         operations := AnswerAt(s.operations, s.pending[r.id.value], r, s.sequence))
    else s
  }

  function Notified(s: Session, r: Record): Session {
    if r.AgentSettled? then s.(operations := WakeAll(s.operations, s.sequence)) else s
  }

  function Accepted(s: Session, r: Record): Session {
    Notified(Resolved(Numbered(s, r), r), r)
  }

  // ---------------------------------------------------------------- failure

  /** Rejecting a pending request or a waiter fails its operation. */
  function FailOne(operations: seq<Phase>, rejected: set<nat>, i: nat): Phase
    requires i < |operations|
  {
    if i in rejected || operations[i].Waiting? then Failed else operations[i]
  }

  function FailAll(operations: seq<Phase>, rejected: set<nat>): (r: seq<Phase>)
    ensures |r| == |operations|
    ensures forall i: nat | i < |r| :: r[i] == FailOne(operations, rejected, i)
  {
    seq(|operations|, i requires 0 <= i < |operations| => FailOne(operations, rejected, i))
  }

  function Dropped(s: Session): Session {
    s.(socket := None, pending := map[], operations := FailAll(s.operations, s.pending.Values))
  }

  function Detached(s: Session): Session {
    Dropped(s).(buffer := "")
  }

  /** `fail` leaves the buffer as it is. */
  function Broken(s: Session, source: nat): Session {
    if s.socket == Some(source) then Dropped(s) else s
  }

  // ---------------------------------------------------------------- consuming bytes

  function Newline(text: string): (i: nat)
    ensures i <= |text| && (i < |text| ==> text[i] == '\n')
  {
    if text == "" || text[0] == '\n' then 0 else 1 + Newline(text[1..])
  }

  /** `raw.replace(/\r$/u, "")` */
  function WithoutReturn(raw: string): string {
    if raw != "" && raw[|raw| - 1] == '\r' then raw[..|raw| - 1] else raw
  }

  /** What one complete line does. */
  function Line(env: Env, s: Session, raw: string): Session {
    if raw == "" then s
    else
      match env.parse(raw)
      case Unparsable => Dropped(s)
      case NotAnObject => s
      case Object(r) => Accepted(s, r)
  }

  function Lines(env: Env, s: Session): Session
    decreases |s.buffer|
  {
    var i := Newline(s.buffer);
    if i == |s.buffer| then s
    else
      var rest := s.(buffer := s.buffer[i + 1..]);
      var next := Line(env, rest, WithoutReturn(s.buffer[..i]));
      LineKeepsBuffer(env, rest, WithoutReturn(s.buffer[..i]));
      if next.socket.None? then next else Lines(env, next)
  }

  lemma LineKeepsBuffer(env: Env, s: Session, raw: string)
    ensures Line(env, s, raw).buffer == s.buffer
  {
  }

  function Consumed(env: Env, s: Session, source: nat, chunk: string): Session {
    if s.socket != Some(source) then s
    else
      var received := s.(buffer := s.buffer + chunk);
      if env.size(received.buffer) > MAX_RECORD_BYTES then Dropped(received) else Lines(env, received)
  }

  // ---------------------------------------------------------------- lines and chunks

  lemma {:induction false} NewlineAppend(a: string, b: string)
    ensures Newline(a) < |a| ==> Newline(a + b) == Newline(a)
    ensures Newline(a) == |a| ==> Newline(a + b) == |a| + Newline(b)
    ensures Newline(a) == |a| <==> '\n' !in a
  {
    if a == "" {
      assert a + b == b;
    } else {
      assert (a + b)[1..] == a[1..] + b;
      assert a == [a[0]] + a[1..];
      NewlineAppend(a[1..], b);
    }
  }

  /** A whole line that arrives on its own is taken as it is, without its line end. */
  lemma LineArrives(env: Env, s: Session, source: nat, line: string)
    requires s.socket == Some(source) && s.buffer == "" && '\n' !in line && env.size(line + "\n") <= MAX_RECORD_BYTES
    ensures Consumed(env, s, source, line + "\n") == Line(env, s, WithoutReturn(line))
  {
    var received := s.(buffer := line + "\n");
    NewlineAppend(line, "\n");
    assert s.buffer + (line + "\n") == received.buffer && received.buffer[|line| + 1..] == "";
    assert received.buffer[..|line|] == line && received.(buffer := "") == s;
    LineKeepsBuffer(env, s, WithoutReturn(line));
    var next := Line(env, s, WithoutReturn(line));
    assert Lines(env, next) == next;
  }

  /** The two line ends. */
  lemma ReturnIsDropped(raw: string)
    requires '\r' !in raw
    ensures WithoutReturn(raw) == raw && WithoutReturn(raw + "\r") == raw
  {
    assert (raw + "\r")[..|raw|] == raw;
    assert raw != "" ==> raw[|raw| - 1] in raw;
  }

  /** What a line does: nothing when it is empty or no object, and one that does not parse ends the connection. */
  lemma LineMeans(env: Env, s: Session, source: nat, raw: string, end: string)
    requires s.socket == Some(source) && s.buffer == "" && '\n' !in raw && '\r' !in raw
    requires end in {"\n", "\r\n"} && env.size(raw + end) <= MAX_RECORD_BYTES
    ensures
      var t := Consumed(env, s, source, raw + end);
      && (raw == "" ==> t == s)
      && (raw != "" && env.parse(raw).Unparsable? ==> t.socket.None? && t.pending == map[] && t.log == s.log)
      && (raw != "" && env.parse(raw).NotAnObject? ==> t == s)
      && (raw != "" && env.parse(raw).Object? ==> t == Accepted(s, env.parse(raw).record))
  {
    var line := if end == "\n" then raw else raw + "\r";
    assert raw + end == line + "\n";
    ReturnIsDropped(raw);
    LineArrives(env, s, source, line);
  }

  /** The same session, whatever is left in the buffer. */
  predicate SameButBuffer(s: Session, t: Session) {
    s.(buffer := "") == t.(buffer := "")
  }

  lemma LineIgnoresBuffer(env: Env, s: Session, t: Session, raw: string)
    requires SameButBuffer(s, t)
    ensures SameButBuffer(Line(env, s, raw), Line(env, t, raw))
  {
  }

  /** Taking the complete lines first and more text later is taking all of it at once. */
  lemma {:induction false} LinesJoin(env: Env, s: Session, more: string)
    requires s.socket.Some?
    ensures
      var first, all := Lines(env, s), Lines(env, s.(buffer := s.buffer + more));
      if first.socket.None? then SameButBuffer(first, all)
      else Lines(env, first.(buffer := first.buffer + more)) == all
    decreases |s.buffer|
  {
    var i := Newline(s.buffer);
    NewlineAppend(s.buffer, more);
    if i < |s.buffer| {
      var joined := s.(buffer := s.buffer + more);
      assert joined.buffer[..i] == s.buffer[..i] && joined.buffer[i + 1..] == s.buffer[i + 1..] + more;
      var raw := WithoutReturn(s.buffer[..i]);
      var rest, restJoined := s.(buffer := s.buffer[i + 1..]), s.(buffer := s.buffer[i + 1..] + more);
      LineIgnoresBuffer(env, rest, restJoined, raw);
      LineKeepsBuffer(env, rest, raw);
      LineKeepsBuffer(env, restJoined, raw);
      var next := Line(env, rest, raw);
      if next.socket.Some? {
        assert Line(env, restJoined, raw) == next.(buffer := next.buffer + more);
        LinesJoin(env, next, more);
      }
    }
  }

  /**
   * However a text is cut into two chunks, the session is the same, as long as what is buffered
   * stays within the limit; a connection that fails on the way differs at most in what is left in
   * its buffer.
   */
  lemma ChunksJoin(env: Env, s: Session, source: nat, a: string, b: string)
    requires s.socket == Some(source)
    requires env.size(s.buffer + a) <= MAX_RECORD_BYTES && env.size(s.buffer + (a + b)) <= MAX_RECORD_BYTES
    requires env.size(Lines(env, s.(buffer := s.buffer + a)).buffer + b) <= MAX_RECORD_BYTES
    ensures
      var two, one := Consumed(env, Consumed(env, s, source, a), source, b), Consumed(env, s, source, a + b);
      SameButBuffer(two, one) && (two.socket.Some? ==> two == one)
  {
    var received := s.(buffer := s.buffer + a);
    assert s.buffer + a + b == s.buffer + (a + b);
    LinesJoin(env, received, b);
    LinesKeepSocket(env, received);
  }

  // ---------------------------------------------------------------- operations

  /** `request`: registers a pending request, or fails when nothing is attached. */
  function Requested(s: Session, i: nat, waiting: Phase): Session
    requires i < |s.operations| && Awaits(waiting) && waiting.request == s.issued
  {
    if s.socket.None? then s.(operations := s.operations[i := Failed])
    else
      s.(issued := s.issued + 1, pending := s.pending[s.issued := i], operations := s.operations[i := waiting])
  }

  /** `waitForAfter`: a settled record above `number` may have arrived before the waiter registers. */
  function AwaitSettled(s: Session, i: nat, prompt: nat, number: nat): Session
    requires i < |s.operations|
  {
    if s.lastSettled.Some? && s.lastSettled.value > number then
      s.(operations := s.operations[i := Settled(prompt, number, s.lastSettled.value)])
    else
      s.(operations := s.operations[i := Waiting(prompt, number)])
  }

  /** An operation resumes after its await. */
  function Resumed(s: Session, i: nat): Session
    requires i < |s.operations|
  {
    match s.operations[i]
    case StateAnswered(_, state, ok) =>
      if ok then Requested(s, i, AwaitPrompt(state, s.issued)) else s.(operations := s.operations[i := Failed])
    case PromptAnswered(prompt, number, ok) =>
      if ok then AwaitSettled(s, i, prompt, number) else s.(operations := s.operations[i := Failed])
    case Settled(prompt, number, settled) => Requested(s, i, AwaitText(prompt, number, settled, s.issued))
    case TextAnswered(prompt, number, settled, fetch, answer, ok) =>
      s.(operations := s.operations[i := if ok then Finished(prompt, number, settled, fetch, answer) else Failed])
    case _ => s
  }

  /** A timer fires or a write fails: the request leaves `pending`, the waiter its listeners. */
  function Abandoned(s: Session, i: nat): Session
    requires i < |s.operations|
  {
    var p := s.operations[i];
    if Awaits(p) then s.(pending := s.pending - {p.request}, operations := s.operations[i := Failed])
    else if p.Waiting? then s.(operations := s.operations[i := Failed])
    else s
  }

  /** The part of `attach` after its detach: a new socket under the next number. */
  function Attached(s: Session): Session {
    s.(socket := Some(s.connections), connections := s.connections + 1, joined := s.joined + [|s.log|])
  }

  datatype Event =
    | Data(source: nat, chunk: string)
    | SocketError(source: nat)
    | Detach
    | Connect
    | StartSend
    | StartRequest
    | Resume(operation: nat)
    | Abandon(operation: nat)

  function Step(env: Env, s: Session, e: Event): Session {
    match e
    case Data(source, chunk) => Consumed(env, s, source, chunk)
    case SocketError(source) => Broken(s, source)
    case Detach => Detached(s)
    case Connect => Attached(s)
    case StartSend =>
      Requested(s.(operations := s.operations + [Failed]), |s.operations|, AwaitState(s.issued))
    case StartRequest =>
      Requested(s.(operations := s.operations + [Failed]), |s.operations|, AwaitOther(s.issued))
    case Resume(i) => if i < |s.operations| then Resumed(s, i) else s
    case Abandon(i) => if i < |s.operations| then Abandoned(s, i) else s
  }

  function Run(env: Env, s: Session, events: seq<Event>): Session
    decreases |events|
  {
    if events == [] then s else Run(env, Step(env, s, events[0]), events[1..])
  }

  // ---------------------------------------------------------------- the invariant

  /** A settled record stands in the log after the first `n` records. */
  ghost predicate SettledAfter(log: seq<Record>, n: nat) {
    exists k: nat :: n <= k < |log| && log[k].AgentSettled?
  }

  /** Record `n` is a settled record numbered above `number`. */
  predicate Settles(log: seq<Record>, number: nat, n: nat) {
    number < n <= |log| && log[n - 1].AgentSettled?
  }

  /** Record `n` is the response to `request`. */
  predicate Answers(log: seq<Record>, request: nat, n: nat) {
    0 < n <= |log| && log[n - 1].Response? && log[n - 1].id == Some(request)
  }

  /** ... and it says that the request succeeded. */
  predicate Grants(log: seq<Record>, request: nat, n: nat) {
    Answers(log, request, n) && log[n - 1].success
  }

  /** Record `n` is a response that succeeded and carries what was asked for. */
  predicate Delivers(log: seq<Record>, n: nat) {
    0 < n <= |log| && log[n - 1].Response? && log[n - 1].success && log[n - 1].useful
  }

  ghost predicate PhaseOk(log: seq<Record>, p: Phase) {
    match p
    case StateAnswered(query, state, ok) => Answers(log, query, state) && (ok <==> Delivers(log, state))
    case AwaitPrompt(state, _) => Delivers(log, state)
    case PromptAnswered(prompt, number, ok) => Answers(log, prompt, number) && (ok <==> log[number - 1].success)
    case Waiting(prompt, number) => Grants(log, prompt, number) && !SettledAfter(log, number)
    case Settled(prompt, number, settled) => Grants(log, prompt, number) && Settles(log, number, settled)
    case AwaitText(prompt, number, settled, _) => Grants(log, prompt, number) && Settles(log, number, settled)
    case TextAnswered(prompt, number, settled, fetch, answer, ok) =>
      && Grants(log, prompt, number) && Settles(log, number, settled) && settled < answer
      && Answers(log, fetch, answer) && (ok <==> Delivers(log, answer))
    case Finished(prompt, number, settled, fetch, answer) =>
      && Grants(log, prompt, number) && Settles(log, number, settled) && settled < answer
      && Answers(log, fetch, answer) && Delivers(log, answer)
    case OtherAnswered(query, reply, ok) => Answers(log, query, reply) && (ok <==> log[reply - 1].success)
    case _ => true
  }

  ghost predicate PhasesOk(s: Session) {
    forall i: nat | i < |s.operations| :: PhaseOk(s.log, s.operations[i])
  }

  /** `lastSettled` is the number of the last settled record. */
  ghost predicate Remembers(s: Session) {
    && s.sequence == |s.log|
    && (s.lastSettled.None? ==> !SettledAfter(s.log, 0))
    && (s.lastSettled.Some? ==>
          var n := s.lastSettled.value;
          0 < n <= |s.log| && s.log[n - 1].AgentSettled? && !SettledAfter(s.log, n))
  }

  /** Operation `i` waits for request `id`. */
  predicate WaitsFor(s: Session, i: nat, id: nat) {
    i < |s.operations| && Awaits(s.operations[i]) && s.operations[i].request == id
  }

  /** Every pending request has its operation waiting for it. */
  ghost predicate PendingOwned(s: Session) {
    forall id: nat | id in s.pending :: id < s.issued && WaitsFor(s, s.pending[id], id)
  }

  /** Every operation that waits for a response has its request pending. */
  ghost predicate WaitsTracked(s: Session) {
    forall i: nat | i < |s.operations| && Awaits(s.operations[i]) ::
      s.operations[i].request in s.pending && s.pending[s.operations[i].request] == i
  }

  /** Connections are numbered in the order they were made, and each record belongs to the one it came on. */
  ghost predicate Placed(log: seq<Record>, origins: seq<nat>, joined: seq<nat>) {
    && |origins| == |log|
    && (forall k: nat | k < |joined| :: joined[k] <= |log|)
    && (forall k: nat, m: nat | k < m < |joined| :: joined[k] <= joined[m])
    && (forall n: nat | n < |log| :: CameOn(origins[n], joined, n))
  }

  /** The record after the first `n` came on connection `c`: made before it, with the next one made after it. */
  predicate CameOn(c: nat, joined: seq<nat>, n: nat) {
    c < |joined| && joined[c] <= n && (c + 1 < |joined| ==> n < joined[c + 1])
  }

  ghost predicate Connected(s: Session) {
    && |s.joined| == s.connections && (s.socket.Some? ==> s.connections > 0 && s.socket.value == s.connections - 1)
    && Placed(s.log, s.origins, s.joined)
  }

  ghost predicate Inv(s: Session) {
    && Remembers(s) && PhasesOk(s) && PendingOwned(s) && WaitsTracked(s) && Connected(s)
    && (s.socket.None? ==> s.pending == map[])
  }

  // ---------------------------------------------------------------- every record keeps the invariant

  lemma SettledAfterMore(log: seq<Record>, r: Record, n: nat)
    ensures SettledAfter(log, n) ==> SettledAfter(log + [r], n)
    ensures n <= |log| ==> (SettledAfter(log + [r], n) <==> SettledAfter(log, n) || r.AgentSettled?)
  {
    if SettledAfter(log, n) {
      var k: nat :| n <= k < |log| && log[k].AgentSettled?;
      assert (log + [r])[k].AgentSettled?;
    }
    if n <= |log| && r.AgentSettled? {
      assert (log + [r])[|log|].AgentSettled?;
    }
    if SettledAfter(log + [r], n) {
      var k: nat :| n <= k < |log + [r]| && (log + [r])[k].AgentSettled?;
      assert k < |log| ==> log[k].AgentSettled?;
    }
  }

  lemma PhaseSurvives(log: seq<Record>, r: Record, p: Phase)
    requires PhaseOk(log, p)
    ensures PhaseOk(log + [r], if r.AgentSettled? then Wake(p, |log| + 1) else p)
  {
    assert (log + [r])[|log|] == r;
    if p.Waiting? {
      SettledAfterMore(log, r, p.number);
    }
  }

  lemma ConnectedMore(s: Session, r: Record)
    requires Connected(s) && s.socket.Some?
    ensures Connected(Numbered(s, r))
  {
    var t := Numbered(s, r);
    forall n: nat | n < |t.log| ensures CameOn(t.origins[n], t.joined, n) {
      if n < |s.log| {
        assert CameOn(s.origins[n], s.joined, n);
      }
    }
  }

  lemma RemembersMore(s: Session, r: Record)
    requires Remembers(s)
    ensures Remembers(Numbered(s, r))
  {
    SettledAfterMore(s.log, r, 0);
    if s.lastSettled.Some? {
      SettledAfterMore(s.log, r, s.lastSettled.value);
    }
  }

  /** The answered operation carries the number of the record that answers it. */
  lemma AnswerPhaseOk(log: seq<Record>, p: Phase, r: Record)
    requires PhaseOk(log, p) && Awaits(p) && r.Response? && r.id == Some(p.request)
    ensures PhaseOk(log + [r], Answer(p, r, |log| + 1))
    ensures !Awaits(Answer(p, r, |log| + 1))
  {
    PhaseSurvives(log, r, p);
    assert (log + [r])[|log|] == r;
  }

  lemma ResponseKeepsInv(s: Session, r: Record)
    requires Inv(s) && s.socket.Some? && r.Response? && r.id.Some? && r.id.value in s.pending
    ensures Inv(Accepted(s, r))
  {
    var t := Accepted(s, r);
    var id := r.id.value;
    var owner := s.pending[id];
    assert WaitsFor(s, owner, id);
    ConnectedMore(s, r);
    RemembersMore(s, r);
    AnswerPhaseOk(s.log, s.operations[owner], r);
    forall i: nat | i < |t.operations| ensures PhaseOk(t.log, t.operations[i]) {
      PhaseSurvives(s.log, r, s.operations[i]);
    }
    forall other: nat | other in t.pending ensures other < t.issued && WaitsFor(t, t.pending[other], other) {
      assert WaitsFor(s, s.pending[other], other);
    }
    forall i: nat | i < |t.operations| && Awaits(t.operations[i])
      ensures t.operations[i].request in t.pending && t.pending[t.operations[i].request] == i
    {
      assert s.operations[i] == t.operations[i];
    }
  }

  lemma OtherRecordKeepsInv(s: Session, r: Record)
    requires Inv(s) && s.socket.Some? && !(r.Response? && r.id.Some? && r.id.value in s.pending)
    ensures Inv(Accepted(s, r))
  {
    var t := Accepted(s, r);
    ConnectedMore(s, r);
    RemembersMore(s, r);
    forall i: nat | i < |t.operations| ensures PhaseOk(t.log, t.operations[i]) {
      PhaseSurvives(s.log, r, s.operations[i]);
    }
    forall id: nat | id in t.pending ensures id < t.issued && WaitsFor(t, t.pending[id], id) {
      assert WaitsFor(s, s.pending[id], id);
    }
    forall i: nat | i < |t.operations| && Awaits(t.operations[i])
      ensures t.operations[i].request in t.pending && t.pending[t.operations[i].request] == i
    {
      assert s.operations[i] == t.operations[i];
    }
  }

  lemma RecordKeepsInv(s: Session, r: Record)
    requires Inv(s) && s.socket.Some?
    ensures Inv(Accepted(s, r))
  {
    if r.Response? && r.id.Some? && r.id.value in s.pending {
      ResponseKeepsInv(s, r);
    } else {
      OtherRecordKeepsInv(s, r);
    }
  }

  // ---------------------------------------------------------------- failure leaves nothing pending

  /** Nothing is attached, no request is pending, and no operation waits for a response or for a settled record. */
  ghost predicate NothingWaits(s: Session) {
    && s.socket.None? && s.pending == map[]
    && forall i: nat | i < |s.operations| :: !Awaits(s.operations[i]) && !s.operations[i].Waiting?
  }

  lemma DroppingKeepsInv(s: Session)
    requires Inv(s)
    ensures Inv(Dropped(s)) && NothingWaits(Dropped(s))
  {
    var t := Dropped(s);
    forall i: nat | i < |t.operations|
      ensures PhaseOk(t.log, t.operations[i]) && !Awaits(t.operations[i]) && !t.operations[i].Waiting?
    {
      assert PhaseOk(s.log, s.operations[i]);
      if Awaits(s.operations[i]) {
        assert s.pending[s.operations[i].request] == i;
        assert i in s.pending.Values;
      }
      assert t.operations[i] == FailOne(s.operations, s.pending.Values, i);
    }
  }

  /** A connection that lets more be buffered than the limit is ended, with everything that waits for it. */
  lemma OversizeEnds(env: Env, s: Session, source: nat, chunk: string)
    requires Inv(s) && s.socket == Some(source) && env.size(s.buffer + chunk) > MAX_RECORD_BYTES
    ensures NothingWaits(Consumed(env, s, source, chunk)) && Consumed(env, s, source, chunk).log == s.log
  {
    OnlyBuffer(s, s.buffer + chunk);
    DroppingKeepsInv(s.(buffer := s.buffer + chunk));
  }

  // ---------------------------------------------------------------- every event keeps the invariant

  lemma OnlyBuffer(s: Session, buffer: string)
    requires Inv(s)
    ensures Inv(s.(buffer := buffer))
  {
    var t := s.(buffer := buffer);
    forall id: nat | id in t.pending ensures id < t.issued && WaitsFor(t, t.pending[id], id) {
      assert WaitsFor(s, s.pending[id], id);
    }
  }

  lemma LineKeepsInv(env: Env, s: Session, raw: string)
    requires Inv(s) && s.socket.Some?
    ensures Inv(Line(env, s, raw))
  {
    if raw != "" {
      match env.parse(raw) {
        case Unparsable => DroppingKeepsInv(s);
        case NotAnObject =>
        case Object(r) => RecordKeepsInv(s, r);
      }
    }
  }

  lemma {:induction false} LinesKeepInv(env: Env, s: Session)
    requires Inv(s) && s.socket.Some?
    ensures Inv(Lines(env, s))
    decreases |s.buffer|
  {
    var i := Newline(s.buffer);
    if i < |s.buffer| {
      var rest := s.(buffer := s.buffer[i + 1..]);
      var raw := WithoutReturn(s.buffer[..i]);
      OnlyBuffer(s, s.buffer[i + 1..]);
      LineKeepsInv(env, rest, raw);
      LineKeepsBuffer(env, rest, raw);
      var next := Line(env, rest, raw);
      if next.socket.Some? {
        LinesKeepInv(env, next);
      }
    }
  }

  lemma ConsumingKeepsInv(env: Env, s: Session, source: nat, chunk: string)
    requires Inv(s)
    ensures Inv(Consumed(env, s, source, chunk))
  {
    if s.socket == Some(source) {
      var received := s.(buffer := s.buffer + chunk);
      OnlyBuffer(s, s.buffer + chunk);
      DroppingKeepsInv(received);
      LinesKeepInv(env, received);
    }
  }

  /** Replacing a phase that waits for no response. */
  lemma MovingOnKeepsInv(s: Session, i: nat, p: Phase)
    requires Inv(s) && i < |s.operations| && !Awaits(s.operations[i]) && !Awaits(p) && PhaseOk(s.log, p)
    ensures Inv(s.(operations := s.operations[i := p]))
  {
    var t := s.(operations := s.operations[i := p]);
    forall id: nat | id in t.pending ensures id < t.issued && WaitsFor(t, t.pending[id], id) {
      assert WaitsFor(s, s.pending[id], id);
    }
    forall k: nat | k < |t.operations| && Awaits(t.operations[k])
      ensures t.operations[k].request in t.pending && t.pending[t.operations[k].request] == k
    {
      assert s.operations[k] == t.operations[k];
    }
  }

  lemma RequestingKeepsInv(s: Session, i: nat, waiting: Phase)
    requires Inv(s) && i < |s.operations| && !Awaits(s.operations[i])
    requires Awaits(waiting) && waiting.request == s.issued && PhaseOk(s.log, waiting)
    ensures Inv(Requested(s, i, waiting))
  {
    if s.socket.None? {
      MovingOnKeepsInv(s, i, Failed);
    } else {
      var t := Requested(s, i, waiting);
      forall id: nat | id in t.pending ensures id < t.issued && WaitsFor(t, t.pending[id], id) {
        if id != s.issued {
          assert WaitsFor(s, s.pending[id], id);
        }
      }
      forall k: nat | k < |t.operations| && Awaits(t.operations[k])
        ensures t.operations[k].request in t.pending && t.pending[t.operations[k].request] == k
      {
        if k != i {
          assert s.operations[k] == t.operations[k];
          assert WaitsFor(s, k, s.operations[k].request);
        }
      }
    }
  }

  lemma StartingKeepsInv(s: Session)
    requires Inv(s)
    ensures Inv(s.(operations := s.operations + [Failed]))
  {
    var t := s.(operations := s.operations + [Failed]);
    forall id: nat | id in t.pending ensures id < t.issued && WaitsFor(t, t.pending[id], id) {
      assert WaitsFor(s, s.pending[id], id);
    }
    forall k: nat | k < |t.operations| && Awaits(t.operations[k])
      ensures t.operations[k].request in t.pending && t.pending[t.operations[k].request] == k
    {
      assert s.operations[k] == t.operations[k];
    }
  }

  lemma AwaitingKeepsInv(s: Session, i: nat, prompt: nat, number: nat)
    requires Inv(s) && i < |s.operations| && !Awaits(s.operations[i]) && Grants(s.log, prompt, number)
    ensures Inv(AwaitSettled(s, i, prompt, number))
  {
    if s.lastSettled.Some? && s.lastSettled.value > number {
      assert s.log[s.lastSettled.value - 1].AgentSettled?;
      MovingOnKeepsInv(s, i, Settled(prompt, number, s.lastSettled.value));
    } else {
      MovingOnKeepsInv(s, i, Waiting(prompt, number));
    }
  }

  lemma ResumingKeepsInv(s: Session, i: nat)
    requires Inv(s) && i < |s.operations|
    ensures Inv(Resumed(s, i))
  {
    assert PhaseOk(s.log, s.operations[i]);
    match s.operations[i] {
      case StateAnswered(_, state, ok) =>
        if ok { RequestingKeepsInv(s, i, AwaitPrompt(state, s.issued)); } else { MovingOnKeepsInv(s, i, Failed); }
      case PromptAnswered(prompt, number, ok) =>
        if ok { AwaitingKeepsInv(s, i, prompt, number); } else { MovingOnKeepsInv(s, i, Failed); }
      case Settled(prompt, number, settled) => RequestingKeepsInv(s, i, AwaitText(prompt, number, settled, s.issued));
      case TextAnswered(prompt, number, settled, fetch, answer, ok) =>
        MovingOnKeepsInv(s, i, if ok then Finished(prompt, number, settled, fetch, answer) else Failed);
      case _ =>
    }
  }

  lemma AbandoningKeepsInv(s: Session, i: nat)
    requires Inv(s) && i < |s.operations|
    ensures Inv(Abandoned(s, i))
  {
    var p := s.operations[i];
    if Awaits(p) {
      var t := Abandoned(s, i);
      forall id: nat | id in t.pending ensures id < t.issued && WaitsFor(t, t.pending[id], id) {
        assert WaitsFor(s, s.pending[id], id);
      }
      forall k: nat | k < |t.operations| && Awaits(t.operations[k])
        ensures t.operations[k].request in t.pending && t.pending[t.operations[k].request] == k
      {
        assert s.operations[k] == t.operations[k];
      }
    } else if p.Waiting? {
      MovingOnKeepsInv(s, i, Failed);
    }
  }

  lemma ConnectingKeepsPlaces(s: Session)
    requires Connected(s)
    ensures Placed(s.log, s.origins, s.joined + [|s.log|])
  {
    forall n: nat | n < |s.log| ensures CameOn(s.origins[n], s.joined + [|s.log|], n) {
      assert CameOn(s.origins[n], s.joined, n);
    }
  }

  lemma AttachingKeepsInv(s: Session)
    requires Inv(s)
    ensures Inv(Attached(s))
  {
    var t := Attached(s);
    forall id: nat | id in t.pending ensures id < t.issued && WaitsFor(t, t.pending[id], id) {
      assert WaitsFor(s, s.pending[id], id);
    }
    ConnectingKeepsPlaces(s);
  }

  lemma StepKeepsInv(env: Env, s: Session, e: Event)
    requires Inv(s)
    ensures Inv(Step(env, s, e))
  {
    match e {
      case Data(source, chunk) => ConsumingKeepsInv(env, s, source, chunk);
      case SocketError(_) => DroppingKeepsInv(s);
      case Detach =>
        DroppingKeepsInv(s);
        OnlyBuffer(Dropped(s), "");
      case Connect => AttachingKeepsInv(s);
      case StartSend =>
        StartingKeepsInv(s);
        RequestingKeepsInv(s.(operations := s.operations + [Failed]), |s.operations|, AwaitState(s.issued));
      case StartRequest =>
        StartingKeepsInv(s);
        RequestingKeepsInv(s.(operations := s.operations + [Failed]), |s.operations|, AwaitOther(s.issued));
      case Resume(i) => if i < |s.operations| { ResumingKeepsInv(s, i); }
      case Abandon(i) => if i < |s.operations| { AbandoningKeepsInv(s, i); }
    }
  }

  lemma {:induction false} RunKeepsInv(env: Env, s: Session, events: seq<Event>)
    requires Inv(s)
    ensures Inv(Run(env, s, events))
    decreases |events|
  {
    if events != [] {
      StepKeepsInv(env, s, events[0]);
      RunKeepsInv(env, Step(env, s, events[0]), events[1..]);
    }
  }

  // ---------------------------------------------------------------- the promises

  /** An operation that asked for the answer did so after a settled record numbered above its prompt's response. */
  ghost predicate FetchesAfterSettling(s: Session) {
    forall i: nat | i < |s.operations| && (s.operations[i].AwaitText? || s.operations[i].Finished?) ::
      Grants(s.log, s.operations[i].prompt, s.operations[i].number)
      && Settles(s.log, s.operations[i].number, s.operations[i].settled)
  }

  /**
   * A prompt is sent only after the task's state has come, an operation waits only for a prompt that
   * was accepted, and it ends well only with a text.
   */
  ghost predicate OnlySuccessGoesOn(s: Session) {
    forall i: nat | i < |s.operations| ::
      var p := s.operations[i];
      && (p.AwaitPrompt? ==> Delivers(s.log, p.state))
      && (p.Waiting? || p.Settled? ==> Grants(s.log, p.prompt, p.number))
      && (p.Finished? ==> Answers(s.log, p.fetch, p.answer) && Delivers(s.log, p.answer))
  }

  /** A connection was made after record `n` and before record `m`. */
  ghost predicate ConnectsBetween(s: Session, n: nat, m: nat) {
    exists k: nat :: k < |s.joined| && n <= s.joined[k] < m
  }

  /** The settled record that ended an operation came on its prompt's connection, unless one was made in between. */
  ghost predicate SettledOnOwnConnection(s: Session) {
    |s.origins| == |s.log| &&
    forall i: nat | i < |s.operations| && (s.operations[i].AwaitText? || s.operations[i].Finished?) ::
      var n, m := s.operations[i].number, s.operations[i].settled;
      && 0 < n < m <= |s.log|
      && (s.origins[n - 1] == s.origins[m - 1] <==> !ConnectsBetween(s, n, m))
  }

  /**
   * The text that an operation returns came on the connection of its prompt, unless one was made in
   * between: a request for it that is resumed after a new connection goes to that one's task.
   */
  ghost predicate FetchedOnOwnConnection(s: Session) {
    |s.origins| == |s.log| &&
    forall i: nat | i < |s.operations| && s.operations[i].Finished? ::
      var n, m := s.operations[i].number, s.operations[i].answer;
      && 0 < n < s.operations[i].settled < m <= |s.log| && Answers(s.log, s.operations[i].fetch, m)
      && (s.origins[n - 1] == s.origins[m - 1] <==> !ConnectsBetween(s, n, m))
  }

  /** `sequence` and `lastSettled` outlive a connection: exactly a connection made in between separates two records. */
  lemma SameConnectionIff(s: Session, n: nat, m: nat)
    requires Connected(s) && 0 < n < m <= |s.log|
    ensures s.origins[n - 1] == s.origins[m - 1] <==> !ConnectsBetween(s, n, m)
  {
    var c, d := s.origins[n - 1], s.origins[m - 1];
    assert CameOn(c, s.joined, n - 1) && CameOn(d, s.joined, m - 1);
    if c < d {
      assert n <= s.joined[c + 1] < m;
    }
    if ConnectsBetween(s, n, m) {
      var k: nat :| k < |s.joined| && n <= s.joined[k] < m;
      assert c < k <= d;
    }
  }

  /** No operation waits for a settled record that has already arrived. */
  ghost predicate NoSettledRecordLost(s: Session) {
    forall i: nat | i < |s.operations| && s.operations[i].Waiting? ::
      !SettledAfter(s.log, s.operations[i].number)
  }

  /** In every run of socket events, operations, failures and timeouts, from the first attachment on. */
  lemma EverySessionRun(env: Env, events: seq<Event>)
    ensures
      var s := Run(env, INITIAL, events);
      && FetchesAfterSettling(s) && OnlySuccessGoesOn(s)
      && SettledOnOwnConnection(s)
      && FetchedOnOwnConnection(s)
      && NoSettledRecordLost(s)
      && (s.socket.None? ==> s.pending == map[])
      && NothingWaits(Step(env, s, Detach))
      && (forall source: nat | s.socket == Some(source) :: NothingWaits(Step(env, s, SocketError(source))))
  {
    RunKeepsInv(env, INITIAL, events);
    var s := Run(env, INITIAL, events);
    DroppingKeepsInv(s);
    assert Step(env, s, Detach).operations == Dropped(s).operations;
    PhasesKeepPromises(s);
    ConnectionsKeepPromises(s);
  }

  lemma PhasesKeepPromises(s: Session)
    requires PhasesOk(s)
    ensures FetchesAfterSettling(s) && OnlySuccessGoesOn(s) && NoSettledRecordLost(s)
  {
    forall i: nat | i < |s.operations| ensures PhaseOk(s.log, s.operations[i]) {
    }
  }

  lemma ConnectionsKeepPromises(s: Session)
    requires PhasesOk(s) && Connected(s)
    ensures SettledOnOwnConnection(s) && FetchedOnOwnConnection(s)
  {
    forall i: nat | i < |s.operations| && s.operations[i].Finished?
      ensures
        var n, m := s.operations[i].number, s.operations[i].answer;
        && 0 < n < s.operations[i].settled < m <= |s.log| && Answers(s.log, s.operations[i].fetch, m)
        && (s.origins[n - 1] == s.origins[m - 1] <==> !ConnectsBetween(s, n, m))
    {
      assert PhaseOk(s.log, s.operations[i]);
      SameConnectionIff(s, s.operations[i].number, s.operations[i].answer);
    }
    forall i: nat | i < |s.operations| && (s.operations[i].AwaitText? || s.operations[i].Finished?)
      ensures
        var n, m := s.operations[i].number, s.operations[i].settled;
        0 < n < m <= |s.log| && (s.origins[n - 1] == s.origins[m - 1] <==> !ConnectsBetween(s, n, m))
    {
      assert PhaseOk(s.log, s.operations[i]);
      SameConnectionIff(s, s.operations[i].number, s.operations[i].settled);
    }
  }

  // ---------------------------------------------------------------- a text from another task

  /** Lines of one character: "a", "b" and "c" answer requests 0, 1 and 2, "s" is a settled record. */
  function OneCharEnv(): Env {
    Env(raw => if raw == "s" then Object(AgentSettled)
               else if raw == "a" then Object(Response(Some(0), true, true))
               else if raw == "b" then Object(Response(Some(1), true, true))
               else if raw == "c" then Object(Response(Some(2), true, true)) else NotAnObject,
        text => |text|)
  }

  lemma OneLine(s: Session, source: nat, c: char)
    requires s.socket == Some(source) && s.buffer == "" && c != '\n' && c != '\r'
    ensures Step(OneCharEnv(), s, Data(source, [c, '\n'])) == Line(OneCharEnv(), s, [c])
  {
    LineArrives(OneCharEnv(), s, source, [c]);
    assert [c] + "\n" == [c, '\n'];
  }

  /** A `send` on the first connection, up to its settled record. */
  function SentAndSettled(): Session {
    Session(Some(0), 1, "", map[], 2, 3, Some(3), [Settled(1, 2, 3)],
            [Response(Some(0), true, true), Response(Some(1), true, true), AgentSettled], [0, 0, 0], [0])
  }

  lemma {:induction false} RunJoin(env: Env, s: Session, a: seq<Event>, b: seq<Event>)
    ensures Run(env, s, a + b) == Run(env, Run(env, s, a), b)
    decreases |a|
  {
    if a == [] {
      assert a + b == b;
    } else {
      assert (a + b)[1..] == a[1..] + b;
      RunJoin(env, Step(env, s, a[0]), a[1..], b);
    }
  }

  lemma RunSnoc(env: Env, events: seq<Event>, s: Session, e: Event)
    requires Run(env, INITIAL, events) == s
    ensures Run(env, INITIAL, events + [e]) == Step(env, s, e)
  {
    RunJoin(env, INITIAL, events, [e]);
    assert [e][1..] == [];
  }

  /** ... and up to its prompt. */
  function SentPrompt(): Session {
    Session(Some(0), 1, "", map[1 := 0], 2, 1, None, [AwaitPrompt(1, 1)], [Response(Some(0), true, true)], [0], [0])
  }

  lemma SendPrompts() returns (events: seq<Event>)
    ensures Run(OneCharEnv(), INITIAL, events) == SentPrompt()
  {
    var env, asked := OneCharEnv(), Session(Some(0), 1, "", map[0 := 0], 1, 0, None, [AwaitState(0)], [], [], [0]);
    RunSnoc(env, [], INITIAL, Connect);
    events := [] + [Connect];
    RunSnoc(env, events, Step(env, INITIAL, Connect), StartSend);
    events := events + [StartSend];
    assert Run(env, INITIAL, events) == asked;
    RunSnoc(env, events, asked, Data(0, ['a', '\n']));
    events := events + [Data(0, ['a', '\n'])];
    OneLine(asked, 0, 'a');
    RunSnoc(env, events, Line(env, asked, "a"), Resume(0));
    events := events + [Resume(0)];
  }

  /** ... and waiting for its settled record. */
  function SentAndWaiting(): Session {
    SentPrompt().(pending := map[], sequence := 2, operations := [Waiting(1, 2)],
                  log := SentPrompt().log + [Response(Some(1), true, true)], origins := [0, 0])
  }

  lemma PromptAnswers()
    ensures Step(OneCharEnv(), Step(OneCharEnv(), SentPrompt(), Data(0, ['b', '\n'])), Resume(0)) == SentAndWaiting()
  {
    OneLine(SentPrompt(), 0, 'b');
  }

  lemma TaskSettles()
    ensures Step(OneCharEnv(), SentAndWaiting(), Data(0, ['s', '\n'])) == SentAndSettled()
  {
    OneLine(SentAndWaiting(), 0, 's');
  }

  lemma SendSettles() returns (events: seq<Event>)
    ensures Run(OneCharEnv(), INITIAL, events) == SentAndSettled()
  {
    var env, s := OneCharEnv(), SentPrompt();
    events := SendPrompts();
    RunSnoc(env, events, s, Data(0, ['b', '\n']));
    events := events + [Data(0, ['b', '\n'])];
    PromptAnswers();
    RunSnoc(env, events, Step(env, s, Data(0, ['b', '\n'])), Resume(0));
    events := events + [Resume(0)];
    TaskSettles();
    RunSnoc(env, events, SentAndWaiting(), Data(0, ['s', '\n']));
    events := events + [Data(0, ['s', '\n'])];
  }

  lemma NewConnectionFetches()
    ensures
      var env, s := OneCharEnv(), SentAndSettled();
      Step(env, Step(env, Step(env, s, Detach), Connect), Resume(0))
      == s.(socket := Some(1), connections := 2, pending := map[2 := 0], issued := 3,
            operations := [AwaitText(1, 2, 3, 2)], joined := [0, 3])
  {
  }

  /** A connection made before the operation resumes: the text it returns is the new task's. */
  lemma TextFromAnotherTask() returns (events: seq<Event>)
    ensures
      var s := Run(OneCharEnv(), INITIAL, events);
      s.operations == [Finished(1, 2, 3, 2, 4)] && s.origins == [0, 0, 0, 1]
  {
    var env := OneCharEnv();
    var detached := Step(env, SentAndSettled(), Detach);
    var connected := Step(env, detached, Connect);
    var fetching := Step(env, connected, Resume(0));
    events := SendSettles();
    RunSnoc(env, events, SentAndSettled(), Detach);
    events := events + [Detach];
    RunSnoc(env, events, detached, Connect);
    events := events + [Connect];
    RunSnoc(env, events, connected, Resume(0));
    events := events + [Resume(0)];
    RunSnoc(env, events, fetching, Data(1, ['c', '\n']));
    events := events + [Data(1, ['c', '\n'])];
    NewConnectionFetches();
    OneLine(fetching, 1, 'c');
    RunSnoc(env, events, Line(env, fetching, "c"), Resume(0));
    events := events + [Resume(0)];
  }

  // ---------------------------------------------------------------- stale sockets

  predicate IsFrom(e: Event, source: nat) {
    (e.Data? && e.source == source) || (e.SocketError? && e.source == source)
  }

  function Without(events: seq<Event>, source: nat): seq<Event> {
    if events == [] then []
    else (if IsFrom(events[0], source) then [] else [events[0]]) + Without(events[1..], source)
  }

  lemma LineKeepsSocket(env: Env, s: Session, raw: string)
    ensures Line(env, s, raw).connections == s.connections
    ensures Line(env, s, raw).socket.Some? ==> Line(env, s, raw).socket == s.socket
  {
  }

  lemma {:induction false} LinesKeepSocket(env: Env, s: Session)
    ensures Lines(env, s).connections == s.connections
    ensures Lines(env, s).socket.Some? ==> Lines(env, s).socket == s.socket
    decreases |s.buffer|
  {
    var i := Newline(s.buffer);
    if i < |s.buffer| {
      var rest := s.(buffer := s.buffer[i + 1..]);
      var raw := WithoutReturn(s.buffer[..i]);
      LineKeepsBuffer(env, rest, raw);
      LineKeepsSocket(env, rest, raw);
      var next := Line(env, rest, raw);
      if next.socket.Some? {
        LinesKeepSocket(env, next);
      }
    }
  }

  /** Connections are numbered upwards, so a socket that was replaced or dropped never comes back. */
  lemma StaleForGood(env: Env, s: Session, e: Event, source: nat)
    requires source < s.connections && s.socket != Some(source)
    ensures source < Step(env, s, e).connections && Step(env, s, e).socket != Some(source)
  {
    if e.Data? && s.socket == Some(e.source) {
      LinesKeepSocket(env, s.(buffer := s.buffer + e.chunk));
    }
  }

  /** Whatever a stale socket still delivers, now or later, changes nothing in any run. */
  lemma {:induction false} StaleSocketsChangeNothing(env: Env, s: Session, events: seq<Event>, source: nat)
    requires source < s.connections && s.socket != Some(source)
    ensures Run(env, s, Without(events, source)) == Run(env, s, events)
    decreases |events|
  {
    if events != [] {
      var rest := Without(events[1..], source);
      StaleForGood(env, s, events[0], source);
      StaleSocketsChangeNothing(env, Step(env, s, events[0]), events[1..], source);
      if IsFrom(events[0], source) {
        assert Without(events, source) == rest;
      } else {
        assert Without(events, source)[1..] == rest;
      }
    }
  }

  // ---------------------------------------------------------------- the session object

  class RemoteTaskSession {
    var socket: Option<nat>
    var connections: nat
    var buffer: string
    var pending: map<nat, nat>
    var issued: nat
    var sequence: nat
    var lastSettled: Option<nat>
    var operations: seq<Phase>
    ghost var log: seq<Record>
    ghost var origins: seq<nat>
    ghost var joined: seq<nat>

    ghost function State(): Session
      reads this
    {
      Session(socket, connections, buffer, pending, issued, sequence, lastSettled, operations, log, origins, joined)
    }

    constructor ()
      ensures State() == INITIAL && Inv(State())
    {
      socket, connections, buffer, pending, issued := None, 0, "", map[], 0;
      sequence, lastSettled, operations, log := 0, None, [], [];
      origins, joined := [], [];
    }

    /** Rejects every pending request. */
    method FailPending()
      requires PendingOwned(State())
      modifies this`pending, this`operations
      ensures pending == map[] && |operations| == |old(operations)|
      ensures forall i: nat | i < |operations| ::
        operations[i] == if i in old(pending).Values then Failed else old(operations)[i]
    {
      forall id: nat | id in pending ensures pending[id] < |operations| {
        assert WaitsFor(State(), pending[id], id);
      }
      var left := pending.Values;
      assert forall i: nat | i in left :: i < |operations|;
      while left != {}
        invariant pending == old(pending) && |operations| == |old(operations)|
        invariant left <= pending.Values
        invariant forall i: nat | i < |operations| ::
          operations[i] == if i in pending.Values - left then Failed else old(operations)[i]
        decreases |left|
      {
        var i: nat :| i in left;
        operations := operations[i := Failed];
        left := left - {i};
      }
      pending := map[];
    }

    /** Rejects every waiter. */
    method NotifyFailure()
      modifies this`operations
      ensures |operations| == |old(operations)|
      ensures forall i: nat | i < |operations| ::
        operations[i] == if old(operations)[i].Waiting? then Failed else old(operations)[i]
    {
      for i := 0 to |operations|
        invariant |operations| == |old(operations)|
        invariant forall k: nat | k < i ::
          operations[k] == if old(operations)[k].Waiting? then Failed else old(operations)[k]
        invariant forall k: nat | i <= k < |operations| :: operations[k] == old(operations)[k]
      {
        if operations[i].Waiting? {
          operations := operations[i := Failed];
        }
      }
    }

    method Drop()
      requires Inv(State())
      modifies this
      ensures State() == Dropped(old(State())) && Inv(State()) && NothingWaits(State())
    {
      DroppingKeepsInv(State());
      socket := None;
      FailPending();
      NotifyFailure();
      assert operations == FailAll(old(operations), old(pending).Values);
    }

    method Detach()
      requires Inv(State())
      modifies this
      ensures State() == Detached(old(State())) && Inv(State()) && NothingWaits(State())
    {
      Drop();
      OnlyBuffer(State(), "");
      buffer := "";
    }

    method Connect()
      requires Inv(State())
      modifies this
      ensures State() == Attached(old(State())) && Inv(State())
    {
      AttachingKeepsInv(State());
      socket := Some(connections);
      connections, joined := connections + 1, joined + [|log|];
    }

    method Fail(source: nat)
      requires Inv(State())
      modifies this
      ensures State() == Broken(old(State()), source) && Inv(State())
      ensures old(socket) == Some(source) ==> NothingWaits(State())
    {
      if socket == Some(source) {
        Drop();
      }
    }

    /** The body of the record loop after parsing. */
    method Accept(r: Record)
      requires Inv(State()) && socket.Some?
      modifies this
      ensures State() == Accepted(old(State()), r) && Inv(State())
    {
      RecordKeepsInv(State(), r);
      sequence, log, origins := sequence + 1, log + [r], origins + [socket.value];
      if r.AgentSettled? {
        lastSettled := Some(sequence);
      }
      if r.Response? && r.id.Some? && r.id.value in pending {
        var owner := pending[r.id.value];
        assert WaitsFor(old(State()), owner, r.id.value);
        pending := pending - {r.id.value};
        operations := operations[owner := Answer(operations[owner], r, sequence)];
      }
      if r.AgentSettled? {
        operations := WakeAll(operations, sequence);
      }
    }

    /** The `data` handler: append, check the size, take complete lines off the front. */
    method Consume(env: Env, source: nat, chunk: string)
      requires Inv(State())
      modifies this
      ensures State() == Consumed(env, old(State()), source, chunk) && Inv(State())
    {
      if socket != Some(source) {
        return;
      }
      OnlyBuffer(State(), buffer + chunk);
      buffer := buffer + chunk;
      if env.size(buffer) > MAX_RECORD_BYTES {
        Fail(source);
        return;
      }
      ghost var start := State();
      while true
        invariant socket == Some(source) && Inv(State()) && Lines(env, State()) == Lines(env, start)
        decreases |buffer|
      {
        var newline := Newline(buffer);
        if newline == |buffer| {
          return;
        }
        var raw := WithoutReturn(buffer[..newline]);
        OnlyBuffer(State(), buffer[newline + 1..]);
        ghost var before := State();
        buffer := buffer[newline + 1..];
        LineKeepsBuffer(env, State(), raw);
        assert State() == before.(buffer := before.buffer[newline + 1..]);
        var open := Take(env, source, raw);
        if !open {
          return;
        }
      }
    }

    /** One line: an empty one does nothing, an unparsable one fails the socket. */
    method Take(env: Env, source: nat, raw: string) returns (open: bool)
      requires Inv(State()) && socket == Some(source)
      modifies this
      ensures State() == Line(env, old(State()), raw) && Inv(State())
      ensures socket == if open then Some(source) else None
    {
      if raw != "" {
        var parsed := env.parse(raw);
        if parsed.Unparsable? {
          Fail(source);
          return false;
        }
        if parsed.Object? {
          Accept(parsed.record);
        }
      }
      return true;
    }

    /** `request`, for the operation `i`. */
    method Request(i: nat, waiting: Phase)
      requires Inv(State()) && i < |operations| && !Awaits(operations[i])
      requires Awaits(waiting) && waiting.request == issued && PhaseOk(log, waiting)
      modifies this
      ensures State() == Requested(old(State()), i, waiting) && Inv(State())
    {
      RequestingKeepsInv(State(), i, waiting);
      if socket.None? {
        operations := operations[i := Failed];
      } else {
        pending := pending[issued := i];
        operations := operations[i := waiting];
        issued := issued + 1;
      }
    }

    /** `waitForAfter`: use the remembered settled record when it is late enough, else register a waiter. */
    method WaitForAfter(i: nat, prompt: nat, number: nat)
      requires Inv(State()) && i < |operations| && !Awaits(operations[i]) && Grants(log, prompt, number)
      modifies this
      ensures State() == AwaitSettled(old(State()), i, prompt, number) && Inv(State())
      ensures operations[i].Waiting? <==> !SettledAfter(log, number)
    {
      AwaitingKeepsInv(State(), i, prompt, number);
      if lastSettled.Some? && lastSettled.value > number {
        operations := operations[i := Settled(prompt, number, lastSettled.value)];
      } else {
        operations := operations[i := Waiting(prompt, number)];
      }
      assert PhaseOk(log, operations[i]);
    }

    method Resume(i: nat)
      requires Inv(State()) && i < |operations|
      modifies this
      ensures State() == Resumed(old(State()), i) && Inv(State())
    {
      ResumingKeepsInv(State(), i);
      assert PhaseOk(log, operations[i]);
      match operations[i] {
        case StateAnswered(_, state, ok) =>
          if ok { Request(i, AwaitPrompt(state, issued)); } else { operations := operations[i := Failed]; }
        case PromptAnswered(prompt, number, ok) =>
          if ok { WaitForAfter(i, prompt, number); } else { operations := operations[i := Failed]; }
        case Settled(prompt, number, settled) => Request(i, AwaitText(prompt, number, settled, issued));
        case TextAnswered(prompt, number, settled, fetch, answer, ok) =>
          operations := operations[i := if ok then Finished(prompt, number, settled, fetch, answer) else Failed];
        case _ =>
      }
    }
  }
}

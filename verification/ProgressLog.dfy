/**
 * The image-build progress log: a writer keeps a bounded tail and an absolute offset, and a client
 * polling job snapshots prints what is new. A character stands for one ASCII byte of the log.
 */
module ProgressLogs {
  import opened Collections

  const MAX_PROGRESS_BYTES: nat := 131072
  const MAX_ATTEMPTS: nat := 1440
  const MAX_STATUS_FAILURES: nat := 12

  /** The progress fields of a job: the kept tail and the number of bytes ever written. */
  datatype Snapshot = Snapshot(log: string, offset: int)

  /** What a job shows when `stream` has been written in all. */
  function Published(stream: string): Snapshot {
    Snapshot(Suffix(stream, MAX_PROGRESS_BYTES), |stream|)
  }

  class JobProgressWriter {
    var tail: string
    var offset: int
    var job: Snapshot
    ghost var stream: string

    ghost predicate Valid()
      reads this
    {
      Snapshot(tail, offset) == Published(stream) && job == Published(stream)
    }

    constructor ()
      ensures Valid() && stream == ""
    {
      tail, offset, job, stream := "", 0, Snapshot("", 0), "";
    }

    method Write(p: string) returns (n: nat)
      requires Valid()
      modifies this
      ensures Valid() && stream == old(stream) + p && n == |p|
    {
      SuffixAfterSuffix(stream, p, MAX_PROGRESS_BYTES);
      offset := offset + |p|;
      tail := tail + p;
      if |tail| > MAX_PROGRESS_BYTES {
        tail := tail[|tail| - MAX_PROGRESS_BYTES..];
      }
      job := Snapshot(tail, offset);
      stream := stream + p;
      n := |p|;
    }
  }

  // ---------------------------------------------------------------- the client's output

  datatype Item = Text(bytes: string) | Truncated(count: nat) | Retrying

  /** What one snapshot makes the client print, and where it has got to afterwards. */
  function NewProgress(job: Snapshot, seen: nat): (seq<Item>, nat) {
    var start := job.offset - |job.log|;
    if job.offset <= seen || start < 0 then ([], seen)
    else if seen < start then ([Truncated(start - seen), Text(job.log)], job.offset)
    else ([Text(job.log[seen - start..])], job.offset)
  }

  method PrintNewProgress(job: Snapshot, seen: nat) returns (items: seq<Item>, next: nat)
    ensures (items, next) == NewProgress(job, seen)
    ensures job.offset <= seen || job.offset < |job.log| ==> items == [] && next == seen
    ensures job.offset > seen && job.offset >= |job.log| ==>
      var start := job.offset - |job.log|;
      && next == job.offset
      && TextOf(items) == (if seen < start then job.log else job.log[seen - start..])
      && TruncatedBytes(items) == (if seen < start then start - seen else 0)
  {
    items, next := [], seen;
    var start := job.offset - |job.log|;
    if job.offset <= next || start < 0 {
      return;
    }
    if next < start {
      items := items + [Truncated(start - next)];
      next := start;
      assert job.log[0..] == job.log;
    }
    items := items + [Text(job.log[next - start..])];
    next := job.offset;
    assert items == NewProgress(job, seen).0;
    PrintedText(items);
  }

  lemma PrintedText(items: seq<Item>)
    ensures |items| == 1 && items[0].Text? ==> TextOf(items) == items[0].bytes && TruncatedBytes(items) == 0
    ensures |items| == 2 && items[0].Truncated? && items[1].Text? ==>
      TextOf(items) == items[1].bytes && TruncatedBytes(items) == items[0].count
  {
    if |items| == 2 {
      PrintedText(items[1..]);
    }
  }

  /** The items walk through `stream` from one position to another, every text in its place. */
  ghost predicate Covers(items: seq<Item>, stream: string, from: nat, to: nat) {
    if items == [] then from == to
    else
      match items[0]
      case Text(bytes) =>
        from + |bytes| <= |stream| && stream[from..from + |bytes|] == bytes
          && Covers(items[1..], stream, from + |bytes|, to)
      case Truncated(count) => Covers(items[1..], stream, from + count, to)
      case Retrying => Covers(items[1..], stream, from, to)
  }

  function TextOf(items: seq<Item>): string {
    if items == [] then ""
    else (if items[0].Text? then items[0].bytes else "") + TextOf(items[1..])
  }

  function TruncatedBytes(items: seq<Item>): nat {
    if items == [] then 0
    else (if items[0].Truncated? then items[0].count else 0) + TruncatedBytes(items[1..])
  }

  lemma {:induction false} CoversJoin(a: seq<Item>, b: seq<Item>, stream: string, from: nat, mid: nat, to: nat)
    requires Covers(a, stream, from, mid) && Covers(b, stream, mid, to)
    ensures Covers(a + b, stream, from, to)
    ensures TruncatedBytes(a + b) == TruncatedBytes(a) + TruncatedBytes(b)
    decreases |a|
  {
    if a == [] {
      assert a + b == b;
    } else {
      assert (a + b)[1..] == a[1..] + b;
      match a[0] {
        case Text(bytes) => CoversJoin(a[1..], b, stream, from + |bytes|, mid, to);
        case Truncated(count) => CoversJoin(a[1..], b, stream, from + count, mid, to);
        case Retrying => CoversJoin(a[1..], b, stream, from, mid, to);
      }
    }
  }

  lemma {:induction false} CoversLonger(items: seq<Item>, stream: string, more: string, from: nat, to: nat)
    requires Covers(items, stream, from, to) && stream <= more
    ensures Covers(items, more, from, to)
    decreases |items|
  {
    if items != [] {
      match items[0] {
        case Text(bytes) =>
          assert more[from..from + |bytes|] == stream[from..from + |bytes|];
          CoversLonger(items[1..], stream, more, from + |bytes|, to);
        case Truncated(count) => CoversLonger(items[1..], stream, more, from + count, to);
        case Retrying => CoversLonger(items[1..], stream, more, from, to);
      }
    }
  }

  /** Printed plus reported bytes account for the whole walk; with none reported, the text is the stream. */
  lemma {:induction false} CoverageAccounts(items: seq<Item>, stream: string, from: nat, to: nat)
    requires Covers(items, stream, from, to)
    ensures from + |TextOf(items)| + TruncatedBytes(items) == to
    ensures TruncatedBytes(items) == 0 ==> to <= |stream| || to == from
    ensures TruncatedBytes(items) == 0 && to <= |stream| ==> TextOf(items) == stream[from..to]
    decreases |items|
  {
    if items != [] {
      match items[0] {
        case Text(bytes) =>
          CoverageAccounts(items[1..], stream, from + |bytes|, to);
          if TruncatedBytes(items) == 0 && to <= |stream| {
            assert stream[from..to] == stream[from..from + |bytes|] + stream[from + |bytes|..to];
          }
        case Truncated(count) => CoverageAccounts(items[1..], stream, from + count, to);
        case Retrying => CoverageAccounts(items[1..], stream, from, to);
      }
    }
  }

  /** One snapshot of the stream moves the client exactly to its end, reporting only what was lost. */
  lemma SnapshotAdvances(stream: string, seen: nat)
    requires seen <= |stream|
    ensures
      var (items, next) := NewProgress(Published(stream), seen);
      && next == |stream|
      && Covers(items, stream, seen, next)
      && TruncatedBytes(items)
          == if |stream| - seen > MAX_PROGRESS_BYTES then |stream| - seen - MAX_PROGRESS_BYTES else 0
  {
    var job := Published(stream);
    var start := job.offset - |job.log|;
    var items := NewProgress(job, seen).0;
    assert job.log == stream[start..];
    if seen == |stream| {
    } else if seen < start {
      assert items[1..] == [Text(job.log)];
      assert items[1..][1..] == [];
      assert TruncatedBytes(items[1..]) == 0;
    } else {
      assert job.log[seen - start..] == stream[seen..];
      assert items[1..] == [];
    }
  }

  // ---------------------------------------------------------------- interleaved writes and polls

  datatype Step = Write(p: string) | Poll | FailedPoll

  datatype Run = Run(stream: string, seen: nat, output: seq<Item>, overrun: bool)

  const Nothing := Run("", 0, [], false)

  /** `overrun` remembers whether some poll found more new bytes than the tail can hold. */
  function After(r: Run, step: Step): Run {
    match step
    case Write(p) => r.(stream := r.stream + p)
    case FailedPoll => r
    case Poll =>
      var (items, next) := NewProgress(Published(r.stream), r.seen);
      Run(r.stream, next, r.output + items, r.overrun || |r.stream| - r.seen > MAX_PROGRESS_BYTES)
  }

  function AfterAll(r: Run, steps: seq<Step>): Run
    decreases |steps|
  {
    if steps == [] then r else AfterAll(After(r, steps[0]), steps[1..])
  }

  /** Everything that the steps write. */
  function Written(steps: seq<Step>): string {
    if steps == [] then "" else (if steps[0].Write? then steps[0].p else "") + Written(steps[1..])
  }

  lemma {:induction false} StreamIsWritten(r: Run, steps: seq<Step>)
    ensures AfterAll(r, steps).stream == r.stream + Written(steps)
    decreases |steps|
  {
    if steps == [] {
      assert r.stream + "" == r.stream;
    } else {
      StreamIsWritten(After(r, steps[0]), steps[1..]);
      var p := if steps[0].Write? then steps[0].p else "";
      assert After(r, steps[0]).stream == r.stream + p;
      assert r.stream + p + Written(steps[1..]) == r.stream + (p + Written(steps[1..]));
    }
  }

  /** A poll leaves the client at the end of the stream. */
  lemma {:induction false} PollCatchesUp(r: Run, steps: seq<Step>)
    requires Faithful(r) && steps != [] && steps[|steps| - 1] == Poll
    ensures AfterAll(r, steps).seen == |AfterAll(r, steps).stream|
    decreases |steps|
  {
    var next := After(r, steps[0]);
    StepKeepsFaithful(r, steps[0]);
    if |steps| == 1 {
      SnapshotAdvances(r.stream, r.seen);
      assert AfterAll(next, steps[1..]) == next;
    } else {
      PollCatchesUp(next, steps[1..]);
    }
  }

  ghost predicate Faithful(r: Run) {
    && r.seen <= |r.stream|
    && Covers(r.output, r.stream, 0, r.seen)
    && (TruncatedBytes(r.output) == 0 <==> !r.overrun)
  }

  lemma StepKeepsFaithful(r: Run, step: Step)
    requires Faithful(r)
    ensures Faithful(After(r, step))
  {
    match step {
      case Write(p) => CoversLonger(r.output, r.stream, r.stream + p, 0, r.seen);
      case FailedPoll =>
      case Poll =>
        SnapshotAdvances(r.stream, r.seen);
        CoversJoin(r.output, NewProgress(Published(r.stream), r.seen).0, r.stream, 0, r.seen, |r.stream|);
    }
  }

  lemma {:induction false} StepsKeepFaithful(r: Run, steps: seq<Step>)
    requires Faithful(r)
    ensures Faithful(AfterAll(r, steps))
    decreases |steps|
  {
    if steps != [] {
      StepKeepsFaithful(r, steps[0]);
      StepsKeepFaithful(After(r, steps[0]), steps[1..]);
    }
  }

  /**
   * For any interleaving of writes and polls the client prints the stream in order with nothing
   * repeated, printed plus reported bytes are the last offset seen, and the print is gap-free if
   * and only if no poll found more than 131072 new bytes.
   */
  lemma EveryProgressRun(steps: seq<Step>)
    ensures
      var r := AfterAll(Nothing, steps);
      && r.stream == Written(steps) && r.seen <= |r.stream|
      && (steps != [] && steps[|steps| - 1] == Poll ==> r.seen == |r.stream|)
      && Covers(r.output, r.stream, 0, r.seen)
      && |TextOf(r.output)| + TruncatedBytes(r.output) == r.seen
      && (!r.overrun <==> TextOf(r.output) == r.stream[..r.seen])
  {
    StepsKeepFaithful(Nothing, steps);
    StreamIsWritten(Nothing, steps);
    assert "" + Written(steps) == Written(steps);
    if steps != [] && steps[|steps| - 1] == Poll {
      PollCatchesUp(Nothing, steps);
    }
    var r := AfterAll(Nothing, steps);
    CoverageAccounts(r.output, r.stream, 0, r.seen);
  }

  // ---------------------------------------------------------------- the polling loop

  datatype Status = Succeeded(hasResult: bool) | Failed | Pending | Unknown
  datatype Response = Unavailable | Job(progress: Snapshot, status: Status)
  datatype Outcome = Built | MissingResult | BuildFailed | UnexpectedStatus | StatusUnreadable | TimedOut

  datatype Client = Client(seen: nat, failures: nat, output: seq<Item>)

  function Settled(status: Status): Outcome
    requires !status.Pending?
  {
    match status
    case Succeeded(hasResult) => if hasResult then Built else MissingResult
    case Failed => BuildFailed
    case Unknown => UnexpectedStatus
  }

  /** The client after a response that does not end the loop, and with its last print if it does. */
  function Heard(c: Client, response: Response): Client {
    match response
    case Unavailable =>
      Client(c.seen, c.failures + 1, if c.failures == 0 then c.output + [Retrying] else c.output)
    case Job(progress, _) =>
      var (items, next) := NewProgress(progress, c.seen);
      Client(next, 0, c.output + items)
  }

  /** What a response decides, if anything. */
  function Decided(c: Client, response: Response): Option<Outcome> {
    match response
    case Unavailable => if c.failures + 1 >= MAX_STATUS_FAILURES then Some(StatusUnreadable) else None
    case Job(_, status) => if status.Pending? then None else Some(Settled(status))
  }

  /** The client before its n-th attempt. */
  function Before(responses: nat -> Response, n: nat): Client {
    if n == 0 then Client(0, 0, []) else Heard(Before(responses, n - 1), responses(n - 1))
  }

  /** What the i-th response decides, given those before it. */
  function DecidedAt(responses: nat -> Response, i: nat): Option<Outcome> {
    Decided(Before(responses, i), responses(i))
  }

  ghost predicate Undecided(responses: nat -> Response, n: nat) {
    forall i: nat :: i < n ==> DecidedAt(responses, i) == None
  }

  /** This answer and the eleven before it are unreadable. */
  predicate TwelveUnreadable(responses: nat -> Response, i: nat) {
    i >= 11 && forall j: nat | i - 11 <= j <= i :: responses(j) == Unavailable
  }

  /** An answer that leaves the loop waiting: a pending job, or not yet the twelfth unreadable answer. */
  predicate GoesOn(responses: nat -> Response, i: nat) {
    if responses(i).Unavailable? then !TwelveUnreadable(responses, i) else responses(i).status == Pending
  }

  ghost predicate AllGoOn(responses: nat -> Response, n: nat) {
    forall i: nat :: i < n ==> GoesOn(responses, i)
  }

  /** What an answer decides, in terms of the answers alone. */
  lemma DecisionMeans(responses: nat -> Response, i: nat)
    ensures DecidedAt(responses, i).None? <==> GoesOn(responses, i)
    ensures DecidedAt(responses, i) == Some(StatusUnreadable) <==> TwelveUnreadable(responses, i)
  {
    GivingUpTakesTwelve(responses, i);
  }

  lemma UndecidedMeans(responses: nat -> Response, n: nat)
    requires Undecided(responses, n)
    ensures AllGoOn(responses, n)
  {
    forall i: nat | i < n ensures GoesOn(responses, i) {
      DecisionMeans(responses, i);
    }
  }

  /** The body of the loop for one response. */
  method HearResponse(client: Client, response: Response) returns (next: Client, decision: Option<Outcome>)
    ensures next == Heard(client, response) && decision == Decided(client, response)
  {
    if response.Unavailable? {
      next := client.(failures := client.failures + 1);
      if next.failures >= MAX_STATUS_FAILURES {
        return next, Some(StatusUnreadable);
      }
      if next.failures == 1 {
        next := next.(output := next.output + [Retrying]);
      }
      return next, None;
    }
    var items, seen := PrintNewProgress(response.progress, client.seen);
    next := Client(seen, 0, client.output + items);
    match response.status {
      case Succeeded(hasResult) => decision := Some(if hasResult then Built else MissingResult);
      case Failed => decision := Some(BuildFailed);
      case Pending => decision := None;
      case Unknown => decision := Some(UnexpectedStatus);
    }
  }

  /**
   * The loop stops at the first deciding response within 1440 attempts, and times out only when
   * there is none; `n` is the number of attempts made.
   */
  method PollImageBuildJob(responses: nat -> Response) returns (outcome: Outcome, client: Client, n: nat)
    ensures n <= MAX_ATTEMPTS
    ensures outcome == TimedOut ==> n == MAX_ATTEMPTS && AllGoOn(responses, MAX_ATTEMPTS)
    ensures outcome != TimedOut ==> n > 0 && AllGoOn(responses, n - 1) && !GoesOn(responses, n - 1)
    ensures outcome != TimedOut ==>
      var last := responses(n - 1);
      && (outcome == Built <==> last.Job? && last.status == Succeeded(true))
      && (outcome == MissingResult <==> last.Job? && last.status == Succeeded(false))
      && (outcome == BuildFailed <==> last.Job? && last.status == Failed)
      && (outcome == UnexpectedStatus <==> last.Job? && last.status == Unknown)
      && (outcome == StatusUnreadable <==> last.Unavailable?)
    ensures client == Before(responses, n)
  {
    client, n := Client(0, 0, []), 0;
    while n < MAX_ATTEMPTS
      invariant n <= MAX_ATTEMPTS
      invariant client == Before(responses, n)
      invariant Undecided(responses, n)
    {
      var decision: Option<Outcome>;
      client, decision := HearResponse(client, responses(n));
      assert decision == DecidedAt(responses, n);
      n := n + 1;
      if decision.Some? {
        UndecidedMeans(responses, n - 1);
        DecisionMeans(responses, n - 1);
        return decision.value, client, n;
      }
    }
    UndecidedMeans(responses, MAX_ATTEMPTS);
    outcome := TimedOut;
  }

  /** The failure count is the length of the current row of unreadable statuses. */
  lemma {:induction false} FailuresAreARow(responses: nat -> Response, n: nat)
    ensures
      var row := Before(responses, n).failures;
      && row <= n
      && (forall i: nat :: n - row <= i < n ==> responses(i) == Unavailable)
      && (row < n ==> responses(n - row - 1).Job?)
  {
    if n > 0 {
      FailuresAreARow(responses, n - 1);
    }
  }

  /**
   * What an attempt prints comes after all that was printed before it: new progress, or, exactly
   * for the first unreadable answer in a row, that the client retries.
   */
  lemma AttemptPrints(responses: nat -> Response, n: nat)
    ensures
      var before, after := Before(responses, n).output, Before(responses, n + 1).output;
      && before <= after
      && (responses(n).Unavailable? ==>
            after[|before|..] == if n == 0 || responses(n - 1).Job? then [Retrying] else [])
      && (responses(n).Job? ==> Retrying !in after[|before|..])
  {
    FailuresAreARow(responses, n);
    var before := Before(responses, n);
    if responses(n).Job? {
      var items := NewProgress(responses(n).progress, before.seen).0;
      assert (before.output + items)[|before.output|..] == items;
    }
  }

  /** Giving up on the status takes exactly twelve unreadable answers in a row, no fewer. */
  lemma GivingUpTakesTwelve(responses: nat -> Response, n: nat)
    ensures DecidedAt(responses, n) == Some(StatusUnreadable)
      <==> responses(n) == Unavailable && n >= 11 && forall i: nat :: n - 11 <= i < n ==> responses(i) == Unavailable
  {
    FailuresAreARow(responses, n);
    RowReaches(responses, n, Before(responses, n).failures, 11);
  }

  lemma RowReaches(responses: nat -> Response, n: nat, row: nat, k: nat)
    requires row <= n
    requires forall i: nat :: n - row <= i < n ==> responses(i) == Unavailable
    requires row < n ==> responses(n - row - 1).Job?
    ensures row >= k <==> n >= k && forall i: nat :: n - k <= i < n ==> responses(i) == Unavailable
  {
    if n >= k > row {
      assert responses(n - row - 1) != Unavailable;
    }
  }

  /** Every readable answer shows a log that has only grown: `streams(i)` is the log at attempt i. */
  ghost predicate ShowsGrowingLog(responses: nat -> Response, streams: nat -> string, n: nat) {
    && (forall i: nat, j: nat :: i <= j < n ==> streams(i) <= streams(j))
    && (forall i: nat :: i < n && responses(i).Job? ==> responses(i).progress == Published(streams(i)))
  }

  /** What the loop has printed walks through the log; after a readable answer, to the log's end. */
  lemma {:induction false} PollingPrintsTheLog(responses: nat -> Response, streams: nat -> string, n: nat)
    requires n > 0 && ShowsGrowingLog(responses, streams, n)
    ensures
      var c := Before(responses, n);
      && c.seen <= |streams(n - 1)|
      && Covers(c.output, streams(n - 1), 0, c.seen)
      && (responses(n - 1).Job? ==> c.seen == |streams(n - 1)|)
  {
    var stream, c := streams(n - 1), Before(responses, n - 1);
    if n > 1 {
      assert streams(n - 2) <= streams(n - 1);
      PollingPrintsTheLog(responses, streams, n - 1);
      CoversLonger(c.output, streams(n - 2), stream, 0, c.seen);
    }
    if responses(n - 1).Job? {
      SnapshotAdvances(stream, c.seen);
      CoversJoin(c.output, NewProgress(Published(stream), c.seen).0, stream, 0, c.seen, |stream|);
    } else if c.failures == 0 {
      assert Covers([Retrying], stream, c.seen, c.seen) by {
        assert [Retrying][1..] == [];
      }
      CoversJoin(c.output, [Retrying], stream, 0, c.seen, c.seen);
    }
  }
}

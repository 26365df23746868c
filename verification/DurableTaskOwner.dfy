/**
 * The durable task owner: idempotent submission and the bounded progress log of a request.
 * Every commit of the original is one atomic step here.
 */
module DurableTaskOwners {
  import opened Collections

  const MAX_PROGRESS: nat := 2000
  const MAX_SPOKEN: nat := 240

  datatype ProgressEvent = ProgressEvent(id: nat, spoken: string)

  /** One entry of the request document. */
  datatype Entry = Entry(taskId: nat, inputJson: string, progress: seq<ProgressEvent>)

  /** A task created in the durable store; its ID is its position in creation order. */
  datatype Task = Task(requestId: string, inputJson: string, createdAt: nat)

  datatype OwnerState = OwnerState(entries: map<string, Entry>, tasks: seq<Task>)

  datatype SubmitResult = Accepted | InvalidRequestId | ConflictingInput

  const EmptyOwner := OwnerState(map[], [])

  // ---------------------------------------------------------------- submission

  /** What a submission commits, and what it answers. */
  function Submitted(s: OwnerState, isTaskId: string -> bool, requestId: string, inputJson: string, now: nat)
    : (OwnerState, SubmitResult)
  {
    if !isTaskId(requestId) then (s, InvalidRequestId)
    else if requestId in s.entries then
      (s, if s.entries[requestId].inputJson == inputJson then Accepted else ConflictingInput)
    else
      (OwnerState(s.entries[requestId := Entry(|s.tasks|, inputJson, [])],
                  s.tasks + [Task(requestId, inputJson, now)]), Accepted)
  }

  /** Requests and tasks are in bijection, and a task carries the input its request was accepted with. */
  ghost predicate WellFormed(s: OwnerState) {
    && (forall r :: r in s.entries ==>
          && s.entries[r].taskId < |s.tasks|
          && s.tasks[s.entries[r].taskId].requestId == r
          && s.tasks[s.entries[r].taskId].inputJson == s.entries[r].inputJson)
    && (forall i :: 0 <= i < |s.tasks| ==>
          s.tasks[i].requestId in s.entries && s.entries[s.tasks[i].requestId].taskId == i)
  }

  datatype Submission = Submission(requestId: string, inputJson: string, at: nat)

  /** The owner after a whole history of submissions by any number of clients. */
  function SubmitAll(s: OwnerState, isTaskId: string -> bool, history: seq<Submission>): OwnerState
    decreases |history|
  {
    if history == [] then s
    else SubmitAll(Submitted(s, isTaskId, history[0].requestId, history[0].inputJson, history[0].at).0,
                   isTaskId, history[1..])
  }

  /**
   * Over any history a valid request ID owns exactly one task, the one its first submission
   * created, and every later submission is accepted if and only if it repeats that input.
   */
  lemma {:induction false} FirstSubmissionWins(s: OwnerState, isTaskId: string -> bool, history: seq<Submission>,
                                               i: nat, inputJson: string, now: nat)
    requires WellFormed(s)
    requires i < |history|
    requires isTaskId(history[i].requestId)
    requires history[i].requestId !in s.entries
    requires forall j :: 0 <= j < i ==> history[j].requestId != history[i].requestId
    ensures
      var r, end := history[i].requestId, SubmitAll(s, isTaskId, history);
      && WellFormed(end)
      && r in end.entries
      && (forall k :: 0 <= k < |end.tasks| && end.tasks[k].requestId == r ==>
            end.tasks[k] == Task(r, history[i].inputJson, history[i].at))
      && (Submitted(end, isTaskId, r, inputJson, now).1 == Accepted <==> inputJson == history[i].inputJson)
      && (Submitted(end, isTaskId, r, inputJson, now).1 == ConflictingInput <==> inputJson != history[i].inputJson)
    decreases |history|
  {
    var h := history[0];
    var next := Submitted(s, isTaskId, h.requestId, h.inputJson, h.at).0;
    SubmittedKeepsWellFormed(s, isTaskId, h.requestId, h.inputJson, h.at);
    if i == 0 {
      EntriesPersist(next, isTaskId, history[1..], h.requestId);
    } else {
      assert history[1..][i - 1] == history[i];
      FirstSubmissionWins(next, isTaskId, history[1..], i - 1, inputJson, now);
    }
  }

  lemma SubmittedKeepsWellFormed(s: OwnerState, isTaskId: string -> bool, requestId: string, inputJson: string,
                                 now: nat)
    requires WellFormed(s)
    ensures WellFormed(Submitted(s, isTaskId, requestId, inputJson, now).0)
  {
    var next := Submitted(s, isTaskId, requestId, inputJson, now).0;
    if next != s {
      forall i | 0 <= i < |next.tasks|
        ensures next.tasks[i].requestId in next.entries && next.entries[next.tasks[i].requestId].taskId == i
      {
        if i < |s.tasks| {
          assert s.tasks[i].requestId in s.entries;
        }
      }
    }
  }

  /** An accepted request keeps its task, its input and its creation time for ever. */
  lemma {:induction false} EntriesPersist(s: OwnerState, isTaskId: string -> bool, history: seq<Submission>, r: string)
    requires WellFormed(s) && r in s.entries
    ensures
      var end := SubmitAll(s, isTaskId, history);
      && WellFormed(end) && s.tasks <= end.tasks
      && r in end.entries && end.entries[r] == s.entries[r]
    decreases |history|
  {
    if history != [] {
      var h := history[0];
      SubmittedKeepsWellFormed(s, isTaskId, h.requestId, h.inputJson, h.at);
      EntriesPersist(Submitted(s, isTaskId, h.requestId, h.inputJson, h.at).0, isTaskId, history[1..], r);
    }
  }

  /** Requests are exactly the valid request IDs that were ever submitted: others leave nothing behind. */
  lemma {:induction false} RequestsAreValid(s: OwnerState, isTaskId: string -> bool, history: seq<Submission>,
                                            r: string)
    ensures r in SubmitAll(s, isTaskId, history).entries
      <==> r in s.entries || (isTaskId(r) && exists i :: 0 <= i < |history| && history[i].requestId == r)
    decreases |history|
  {
    if history != [] {
      var h := history[0];
      RequestsAreValid(Submitted(s, isTaskId, h.requestId, h.inputJson, h.at).0, isTaskId, history[1..], r);
      if i :| 0 <= i < |history| && history[i].requestId == r {
        assert i > 0 ==> history[1..][i - 1] == history[i];
      }
      if i :| 0 <= i < |history[1..]| && history[1..][i].requestId == r {
        assert history[i + 1] == history[1..][i];
      }
    }
  }

  // ---------------------------------------------------------------- progress

  /** The log after one progress commit. */
  function Appended(log: seq<ProgressEvent>, spoken: string): seq<ProgressEvent> {
    var cursor := (if log == [] then 0 else log[|log| - 1].id) + 1;
    Suffix(log + [ProgressEvent(cursor, Prefix(spoken, MAX_SPOKEN))], MAX_PROGRESS)
  }

  /** The events a reader holding cursor `after` has not been given. */
  function Unread(log: seq<ProgressEvent>, after: nat): seq<ProgressEvent> {
    if log == [] then []
    else if log[0].id > after then [log[0]] + Unread(log[1..], after)
    else Unread(log[1..], after)
  }

  function Page(log: seq<ProgressEvent>, after: nat, limit: nat): seq<ProgressEvent> {
    Prefix(Unread(log, after), limit)
  }

  /** Every event ever spoken, numbered from one: the log without its cap. */
  function Numbered(spoken: seq<string>): (full: seq<ProgressEvent>)
    ensures |full| == |spoken|
    ensures forall i :: 0 <= i < |full| ==> full[i] == ProgressEvent(i + 1, Prefix(spoken[i], MAX_SPOKEN))
  {
    seq(|spoken|, i requires 0 <= i < |spoken| => ProgressEvent(i + 1, Prefix(spoken[i], MAX_SPOKEN)))
  }

  datatype ProgressStep = Speak(spoken: string) | Read(limit: nat)

  /** One request's log, what was spoken so far, and a client paging with its last seen ID. */
  datatype Paging = Paging(log: seq<ProgressEvent>, spoken: seq<string>, cursor: nat, received: seq<ProgressEvent>,
                           missed: int)

  const NothingRead := Paging([], [], 0, [], 0)

  /** `missed` counts the events each page had to jump over. */
  function Took(p: Paging, page: seq<ProgressEvent>): Paging {
    if page == [] then p
    else p.(cursor := page[|page| - 1].id, received := p.received + page,
            missed := p.missed + page[|page| - 1].id - p.cursor - |page|)
  }

  function Step(p: Paging, step: ProgressStep): Paging {
    match step
    case Speak(spoken) => p.(log := Appended(p.log, spoken), spoken := p.spoken + [spoken])
    case Read(limit) =>
      Took(p, Page(p.log, p.cursor, limit))
  }

  function StepAll(p: Paging, steps: seq<ProgressStep>): Paging
    decreases |steps|
  {
    if steps == [] then p else StepAll(Step(p, steps[0]), steps[1..])
  }

  ghost predicate PagingInv(p: Paging) {
    && p.log == Suffix(Numbered(p.spoken), MAX_PROGRESS)
    && p.cursor <= |p.spoken|
    && InOrder(p.received, p.cursor)
    && Unaltered(p.received, Numbered(p.spoken))
    && HoldsRecent(p.received, p.cursor, |p.spoken|)
    && p.cursor == |p.received| + p.missed
  }

  lemma NumberedSnoc(spoken: seq<string>, next: string)
    ensures Numbered(spoken + [next]) == Numbered(spoken) + [ProgressEvent(|spoken| + 1, Prefix(next, MAX_SPOKEN))]
  {
    var longer := Numbered(spoken + [next]);
    forall i | 0 <= i < |spoken| ensures longer[i] == Numbered(spoken)[i] {
      assert (spoken + [next])[i] == spoken[i];
    }
  }

  lemma AppendedIsNumbered(spoken: seq<string>, next: string)
    ensures Appended(Suffix(Numbered(spoken), MAX_PROGRESS), next) == Suffix(Numbered(spoken + [next]), MAX_PROGRESS)
  {
    var full := Numbered(spoken);
    var log := Suffix(full, MAX_PROGRESS);
    var event := ProgressEvent(|spoken| + 1, Prefix(next, MAX_SPOKEN));
    assert |full| > 0 ==> log[|log| - 1] == full[|full| - 1];
    NumberedSnoc(spoken, next);
    SuffixAfterSuffix(full, [event], MAX_PROGRESS);
  }

  /** On consecutively numbered events, filtering by ID is cutting a tail. */
  lemma {:induction false} UnreadIsTail(log: seq<ProgressEvent>, first: nat, after: nat)
    requires forall i :: 0 <= i < |log| ==> log[i].id == first + i
    ensures
      var skip := if after < first then 0 else if after - first + 1 <= |log| then after - first + 1 else |log|;
      Unread(log, after) == log[skip..]
  {
    if log != [] {
      UnreadIsTail(log[1..], first + 1, after);
      if first > after {
        assert log == [log[0]] + log[1..];
      } else {
        var skip := if after < first + 1 then 0 else if after - first <= |log| - 1 then after - first else |log| - 1;
        assert log[1..][skip..] == log[skip + 1..];
      }
    }
  }

  lemma DropDrop<T>(s: seq<T>, i: nat, j: nat)
    requires i + j <= |s|
    ensures s[i..][j..] == s[i + j..]
  {
  }

  /** Where a page starts: after the cursor, or after everything the cap has dropped. */
  function PageStart(total: nat, kept: nat, cursor: nat): nat
    requires kept <= total
  {
    if cursor < total - kept then total - kept else cursor
  }

  /** What a reader has not been given is an end of the full history. */
  lemma UnreadFromTail(full: seq<ProgressEvent>, kept: nat, cursor: nat)
    requires forall i :: 0 <= i < |full| ==> full[i].id == i + 1
    requires kept <= |full| && cursor <= |full|
    ensures PageStart(|full|, kept, cursor) <= |full|
    ensures Unread(full[|full| - kept..], cursor) == full[PageStart(|full|, kept, cursor)..]
  {
    var dropped := |full| - kept;
    var log := full[dropped..];
    assert forall i :: 0 <= i < |log| ==> log[i] == full[dropped + i];
    UnreadIsTail(log, dropped + 1, cursor);
    DropDrop(full, dropped, if cursor < dropped + 1 then 0 else cursor - dropped);
  }

  /** Every page continues the reader's order and jumps only over events the cap has dropped. */
  lemma PageFromTail(full: seq<ProgressEvent>, kept: nat, cursor: nat, limit: nat)
    requires forall i :: 0 <= i < |full| ==> full[i].id == i + 1
    requires kept <= |full| && cursor <= |full|
    ensures
      var page, from := Page(full[|full| - kept..], cursor, limit), PageStart(|full|, kept, cursor);
      && from <= |full| && |page| == (if |full| - from < limit then |full| - from else limit)
      && page == full[from..from + |page|]
  {
    UnreadFromTail(full, kept, cursor);
    TakeDrop(full, PageStart(|full|, kept, cursor), limit);
  }

  lemma TakeDrop<T>(s: seq<T>, i: nat, limit: nat)
    requires i <= |s|
    ensures
      var r := Prefix(s[i..], limit);
      |r| == (if |s| - i < limit then |s| - i else limit) && r == s[i..i + |r|]
  {
  }

  ghost predicate InOrder(received: seq<ProgressEvent>, cursor: nat) {
    && (forall i :: 0 <= i < |received| ==> 1 <= received[i].id <= cursor)
    && (forall i, j :: 0 <= i < j < |received| ==> received[i].id < received[j].id)
  }

  /** Whatever was received is what was spoken under that ID. */
  ghost predicate Unaltered(received: seq<ProgressEvent>, full: seq<ProgressEvent>) {
    forall i :: 0 <= i < |received| ==> 1 <= received[i].id <= |full| && received[i] == full[received[i].id - 1]
  }

  /** Once the reader's cursor is past an ID the cap still holds, the reader has that event. */
  ghost predicate HoldsRecent(received: seq<ProgressEvent>, cursor: nat, total: nat) {
    forall id :: 1 <= id <= cursor && id > total - MAX_PROGRESS ==> Received(received, id)
  }

  ghost predicate Received(received: seq<ProgressEvent>, id: nat) {
    exists i :: 0 <= i < |received| && received[i].id == id
  }

  lemma ReceivingPage(received: seq<ProgressEvent>, cursor: nat, total: nat, page: seq<ProgressEvent>, from: nat)
    requires HoldsRecent(received, cursor, total)
    requires from == cursor || (from == total - MAX_PROGRESS && from > cursor)
    requires forall k :: 0 <= k < |page| ==> page[k].id == from + k + 1
    ensures HoldsRecent(received + page, from + |page|, total)
    ensures InOrder(received, cursor) ==> InOrder(received + page, from + |page|)
  {
    forall id | 1 <= id <= from + |page| && id > total - MAX_PROGRESS ensures Received(received + page, id) {
      if id <= from {
        assert Received(received, id);
        var i :| 0 <= i < |received| && received[i].id == id;
        assert (received + page)[i].id == id;
      } else {
        assert (received + page)[|received| + (id - from - 1)] == page[id - from - 1];
      }
    }
  }

  lemma ReceivingUnaltered(received: seq<ProgressEvent>, full: seq<ProgressEvent>, page: seq<ProgressEvent>, from: nat)
    requires Unaltered(received, full)
    requires forall i :: 0 <= i < |full| ==> full[i].id == i + 1
    requires from + |page| <= |full| && page == full[from..from + |page|]
    ensures Unaltered(received + page, full)
    ensures forall k :: 0 <= k < |page| ==> page[k].id == from + k + 1
  {
  }

  lemma TookKeepsPaging(p: Paging, page: seq<ProgressEvent>, from: nat)
    requires PagingInv(p)
    requires from == p.cursor || (from == |p.spoken| - MAX_PROGRESS && from > p.cursor)
    requires from + |page| <= |p.spoken| && page == Numbered(p.spoken)[from..from + |page|]
    ensures PagingInv(Took(p, page))
  {
    ReceivingUnaltered(p.received, Numbered(p.spoken), page, from);
    ReceivingPage(p.received, p.cursor, |p.spoken|, page, from);
  }

  lemma PageOfLog(full: seq<ProgressEvent>, log: seq<ProgressEvent>, cursor: nat, limit: nat)
    requires forall i :: 0 <= i < |full| ==> full[i].id == i + 1
    requires log == Suffix(full, MAX_PROGRESS) && cursor <= |full|
    ensures
      var page, from := Page(log, cursor, limit), PageStart(|full|, |log|, cursor);
      && from + |page| <= |full| && page == full[from..from + |page|]
      && (from == cursor || (from == |full| - MAX_PROGRESS && from > cursor))
  {
    assert log == full[|full| - |log|..];
    PageFromTail(full, |log|, cursor, limit);
  }

  lemma ReadKeepsPaging(p: Paging, limit: nat)
    requires PagingInv(p)
    ensures PagingInv(Step(p, Read(limit)))
  {
    PageOfLog(Numbered(p.spoken), p.log, p.cursor, limit);
    TookKeepsPaging(p, Page(p.log, p.cursor, limit), PageStart(|p.spoken|, |p.log|, p.cursor));
  }

  lemma SpeakKeepsPaging(p: Paging, spoken: string)
    requires PagingInv(p)
    ensures PagingInv(Step(p, Speak(spoken)))
  {
    AppendedIsNumbered(p.spoken, spoken);
    UnalteredMore(p.received, p.spoken, spoken);
  }

  lemma UnalteredMore(received: seq<ProgressEvent>, spoken: seq<string>, next: string)
    requires Unaltered(received, Numbered(spoken))
    ensures Unaltered(received, Numbered(spoken + [next]))
  {
    NumberedSnoc(spoken, next);
  }

  lemma {:induction false} StepsKeepPaging(p: Paging, steps: seq<ProgressStep>)
    requires PagingInv(p)
    ensures PagingInv(StepAll(p, steps))
    decreases |steps|
  {
    if steps != [] {
      match steps[0] {
        case Speak(spoken) => SpeakKeepsPaging(p, spoken);
        case Read(limit) => ReadKeepsPaging(p, limit);
      }
      StepsKeepPaging(Step(p, steps[0]), steps[1..]);
    }
  }

  /**
   * Stored IDs are consecutive with at most 2000 kept, and a reader that pages with its last seen
   * ID gets strictly increasing, unaltered events; whatever it was not given up to its cursor had
   * already been dropped by the cap, and it received everything if and only if no page jumped.
   */
  ghost predicate PagedFaithfully(q: Paging) {
    && |q.log| <= MAX_PROGRESS && |q.log| <= |q.spoken| && q.cursor <= |q.spoken|
    && (forall i :: 0 <= i < |q.log| ==> q.log[i] == Numbered(q.spoken)[|q.spoken| - |q.log| + i])
    && (forall i, j :: 0 <= i < j < |q.received| ==> q.received[i].id < q.received[j].id)
    && Unaltered(q.received, Numbered(q.spoken))
    && (forall id :: 1 <= id <= q.cursor && !Received(q.received, id) ==> id <= |q.spoken| - MAX_PROGRESS)
    && (q.missed == 0 <==> q.received == Numbered(q.spoken)[..q.cursor])
  }

  function SpokenIn(step: ProgressStep): seq<string> {
    if step.Speak? then [step.spoken] else []
  }

  /** Everything that is spoken in these steps. */
  function Spoken(steps: seq<ProgressStep>): seq<string> {
    if steps == [] then [] else SpokenIn(steps[0]) + Spoken(steps[1..])
  }

  lemma StepSpeaks(p: Paging, step: ProgressStep)
    ensures Step(p, step).spoken == p.spoken + SpokenIn(step)
  {
  }

  lemma {:induction false} LogIsSpoken(p: Paging, steps: seq<ProgressStep>)
    ensures StepAll(p, steps).spoken == p.spoken + Spoken(steps)
    decreases |steps|
  {
    if steps != [] {
      StepSpeaks(p, steps[0]);
      LogIsSpoken(Step(p, steps[0]), steps[1..]);
      Associate(p.spoken, SpokenIn(steps[0]), Spoken(steps[1..]));
    }
  }

  lemma Associate(a: seq<string>, b: seq<string>, c: seq<string>)
    ensures a + b + c == a + (b + c)
  {
  }

  lemma SpokenFromStart(steps: seq<ProgressStep>)
    ensures StepAll(NothingRead, steps).spoken == Spoken(steps)
  {
    LogIsSpoken(NothingRead, steps);
    assert [] + Spoken(steps) == Spoken(steps);
  }

  lemma RunIsPaged(steps: seq<ProgressStep>)
    ensures PagedFaithfully(StepAll(NothingRead, steps))
  {
    StepsKeepPaging(NothingRead, steps);
    PagingMeans(StepAll(NothingRead, steps));
  }

  /** Every interleaving of commits and reads of a new request. */
  lemma EveryPagingRun(steps: seq<ProgressStep>)
    ensures PagedFaithfully(StepAll(NothingRead, steps))
    ensures StepAll(NothingRead, steps).spoken == Spoken(steps)
  {
    RunIsPaged(steps);
    SpokenFromStart(steps);
  }

  lemma PagingMeans(q: Paging)
    requires PagingInv(q)
    ensures PagedFaithfully(q)
  {
    ReceivedAllOrMissed(q);
  }

  lemma ReceivedAllOrMissed(p: Paging)
    requires PagingInv(p)
    ensures p.missed == 0 <==> p.received == Numbered(p.spoken)[..p.cursor]
  {
    if p.missed == 0 {
      forall i | 0 <= i < |p.received| ensures p.received[i].id == i + 1 {
        IncreasingAtLeast(p.received, i);
        IncreasingAtMost(p.received, p.cursor, i);
      }
    }
  }

  lemma {:induction false} IncreasingAtLeast(events: seq<ProgressEvent>, i: nat)
    requires i < |events|
    requires forall j, k :: 0 <= j < k < |events| ==> events[j].id < events[k].id
    requires events[0].id >= 1
    ensures events[i].id >= i + 1
  {
    if i > 0 {
      IncreasingAtLeast(events, i - 1);
    }
  }

  lemma {:induction false} IncreasingAtMost(events: seq<ProgressEvent>, cursor: nat, i: nat)
    requires i < |events|
    requires forall j, k :: 0 <= j < k < |events| ==> events[j].id < events[k].id
    requires events[|events| - 1].id <= cursor
    ensures events[i].id + (|events| - 1 - i) <= cursor
    decreases |events| - i
  {
    if i < |events| - 1 {
      IncreasingAtMost(events, cursor, i + 1);
    }
  }

  // ---------------------------------------------------------------- the owner object

  class DurableTaskOwner {
    const isTaskId: string -> bool
    var entries: map<string, Entry>
    var tasks: seq<Task>

    ghost function State(): OwnerState
      reads this
    {
      OwnerState(entries, tasks)
    }

    constructor (isTaskId: string -> bool)
      ensures this.isTaskId == isTaskId && State() == EmptyOwner
    {
      this.isTaskId := isTaskId;
      entries, tasks := map[], [];
    }

    method Submit(requestId: string, inputJson: string, now: nat) returns (result: SubmitResult)
      modifies this
      ensures (State(), result) == Submitted(old(State()), isTaskId, requestId, inputJson, now)
      ensures result == InvalidRequestId <==> !isTaskId(requestId)
      ensures result == ConflictingInput
        <==> isTaskId(requestId) && requestId in old(entries) && old(entries)[requestId].inputJson != inputJson
      ensures result == Accepted && requestId !in old(entries) ==>
        && tasks == old(tasks) + [Task(requestId, inputJson, now)]
        && entries == old(entries)[requestId := Entry(|old(tasks)|, inputJson, [])]
      ensures result != Accepted || requestId in old(entries) ==> State() == old(State())
    {
      if !isTaskId(requestId) {
        return InvalidRequestId;
      }
      if requestId in entries {
        if entries[requestId].inputJson != inputJson {
          return ConflictingInput;
        }
        return Accepted;
      }
      var taskId := |tasks|;
      tasks := tasks + [Task(requestId, inputJson, now)];
      entries := entries[requestId := Entry(taskId, inputJson, [])];
      return Accepted;
    }

    /** The progress commit of a running product task; fails when the request is not stored. */
    method CommitProgress(requestId: string, spoken: string) returns (ok: bool)
      modifies this
      ensures ok <==> requestId in old(entries)
      ensures tasks == old(tasks)
      ensures !ok ==> entries == old(entries)
      ensures ok ==> entries == old(entries)[requestId :=
                       old(entries)[requestId].(progress := Appended(old(entries)[requestId].progress, spoken))]
    {
      if requestId !in entries {
        return false;
      }
      var entry := entries[requestId];
      var cursor := 1;
      if |entry.progress| > 0 {
        cursor := entry.progress[|entry.progress| - 1].id + 1;
      }
      var event := ProgressEvent(cursor, Prefix(spoken, MAX_SPOKEN));
      entries := entries[requestId := entry.(progress := Suffix(entry.progress + [event], MAX_PROGRESS))];
      return true;
    }

    method Progress(requestId: string, after: nat, limit: nat) returns (page: seq<ProgressEvent>)
      ensures page == if requestId in entries then Page(entries[requestId].progress, after, limit) else []
    {
      page := [];
      if requestId in entries {
        var log := entries[requestId].progress;
        var unread: seq<ProgressEvent> := [];
        for i := 0 to |log|
          invariant unread + Unread(log[i..], after) == Unread(log, after)
        {
          assert log[i..][1..] == log[i + 1..];
          if log[i].id > after {
            unread := unread + [log[i]];
          }
        }
        page := Prefix(unread, limit);
      }
    }
  }
}

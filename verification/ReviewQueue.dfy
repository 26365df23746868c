/**
 * Journal review queues: items with suggestions and evidence, one of them active. A correction
 * awaits the gateway between reading the active item and writing the current position.
 */
module ReviewQueues {
  import opened Collections

  datatype Outcome = Pending | Accepted | Edited | Rejected | Missed | Empty

  datatype Evidence = Evidence(quote: string, start: nat, end: nat)

  datatype Suggestion = Suggestion(kind: string, statement: string, topics: seq<string>, evidence: Option<Evidence>)

  datatype Item = Item(id: string, source: string, transcript: string, suggestion: Suggestion, outcome: Outcome)

  datatype Queue = Queue(title: string, items: seq<Item>, currentIndex: nat)

  /** Fields that are absent or empty leave the suggestion as it is; empty topics replace. */
  datatype Changes = Changes(kind: string, statement: string, topics: Option<seq<string>>, evidence: Option<Evidence>)

  datatype Direction = Previous | Next

  /** JavaScript's `slice` for offsets that are not negative. */
  function Slice(s: string, start: nat, end: nat): string {
    var e := if end < |s| then end else |s|;
    if start < e then s[start..e] else ""
  }

  predicate Quotes(transcript: string, e: Evidence) {
    Slice(transcript, e.start, e.end) == e.quote
  }

  predicate EvidenceOk(item: Item) {
    item.suggestion.evidence.Some? ==> Quotes(item.transcript, item.suggestion.evidence.value)
  }

  predicate AllEvidenceOk(items: seq<Item>) {
    forall i | 0 <= i < |items| :: EvidenceOk(items[i])
  }

  /** The index is in range and every piece of evidence is its transcript's slice. */
  predicate QueueOk(q: Queue) {
    q.currentIndex < |q.items| && AllEvidenceOk(q.items)
  }

  // ---------------------------------------------------------------- reviewing

  function IfPresent(change: string, value: string): string {
    if change != "" then change else value
  }

  function Changed(s: Suggestion, c: Changes): Suggestion {
    Suggestion(IfPresent(c.kind, s.kind), IfPresent(c.statement, s.statement),
               if c.topics.Some? then c.topics.value else s.topics,
               if c.evidence.Some? then c.evidence else s.evidence)
  }

  /** The first pending item from `from` up to `to`, or `to`. */
  function FirstPending(items: seq<Item>, from: nat, to: nat): (i: nat)
    requires from <= to <= |items|
    ensures from <= i <= to && (i < to ==> items[i].outcome == Pending)
    decreases |items| - from
  {
    if from == to || items[from].outcome == Pending then from else FirstPending(items, from + 1, to)
  }

  /** The next pending item after the current one, else the first before it, else the current one. */
  function NextActive(items: seq<Item>, current: nat): nat
    requires current < |items|
  {
    var next := FirstPending(items, current + 1, |items|);
    if next < |items| then next
    else
      var wrapped := FirstPending(items, 0, current);
      if wrapped < current then wrapped else current
  }

  /** The evidence that review and correction accept. */
  predicate Admits(transcript: string, evidence: Option<Evidence>) {
    evidence.Some? ==> evidence.value.end > evidence.value.start && Quotes(transcript, evidence.value)
  }

  predicate IsActive(q: Queue, suggestionId: string) {
    q.currentIndex < |q.items| && q.items[q.currentIndex].id == suggestionId
  }

  function Reviewed(q: Queue, outcome: Outcome, changes: Changes): Queue
    requires q.currentIndex < |q.items|
  {
    var active := q.items[q.currentIndex];
    var reviewed := active.(outcome := outcome, suggestion := Changed(active.suggestion, changes));
    var items := q.items[q.currentIndex := reviewed];
    q.(items := items, currentIndex := NextActive(items, q.currentIndex))
  }

  /**
   * The schema allows every outcome but `pending`; the suggestion must be the active one, its evidence
   * an exact quote.
   */
  predicate Accepts(q: Queue, suggestionId: string, outcome: Outcome, changes: Changes) {
    outcome != Pending && IsActive(q, suggestionId) && Admits(q.items[q.currentIndex].transcript, changes.evidence)
  }

  /** A refused review changes nothing. */
  function Review(q: Queue, suggestionId: string, outcome: Outcome, changes: Changes): Queue {
    if Accepts(q, suggestionId, outcome, changes) then Reviewed(q, outcome, changes) else q
  }

  function Navigate(q: Queue, suggestionId: string, direction: Direction): Queue {
    if !IsActive(q, suggestionId) then q
    else if direction == Next then
      if q.currentIndex + 1 < |q.items| then q.(currentIndex := q.currentIndex + 1) else q
    else
      if q.currentIndex > 0 then q.(currentIndex := q.currentIndex - 1) else q
  }

  function Corrected(active: Item, kind: string, text: string, topics: seq<string>, evidence: Option<Evidence>): Item {
    active.(outcome := Edited,
            suggestion := Suggestion(kind, text, topics,
                                     if evidence.Some? then evidence else active.suggestion.evidence))
  }

  /** After the await: the copy of the item that was active is written to the position that is current now. */
  function WriteCorrection(q: Queue, corrected: Item): Queue {
    if q.currentIndex < |q.items| then q.(items := q.items[q.currentIndex := corrected]) else q
  }

  // ---------------------------------------------------------------- counting pending items

  function PendingCount(items: seq<Item>): nat {
    if items == [] then 0 else (if items[0].outcome == Pending then 1 else 0) + PendingCount(items[1..])
  }

  lemma {:induction false} CountUpdate(items: seq<Item>, i: nat, item: Item)
    requires i < |items|
    ensures PendingCount(items[i := item])
         == PendingCount(items) - (if items[i].outcome == Pending then 1 else 0)
           + (if item.outcome == Pending then 1 else 0)
  {
    if i == 0 {
      assert items[0 := item][1..] == items[1..];
    } else {
      assert items[i := item][1..] == items[1..][i - 1 := item];
      CountUpdate(items[1..], i - 1, item);
    }
  }

  lemma {:induction false} CountZero(items: seq<Item>)
    ensures PendingCount(items) == 0 <==> forall i | 0 <= i < |items| :: items[i].outcome != Pending
  {
    if items != [] {
      CountZero(items[1..]);
      if PendingCount(items) == 0 {
        forall i | 0 <= i < |items| ensures items[i].outcome != Pending {
          if i > 0 {
            assert items[i] == items[1..][i - 1];
          }
        }
      }
    }
  }

  lemma {:induction false} FirstPendingMisses(items: seq<Item>, from: nat, to: nat)
    requires from <= to <= |items|
    ensures forall k: nat :: from <= k < FirstPending(items, from, to) ==> items[k].outcome != Pending
    decreases |items| - from
  {
    if from < to && items[from].outcome != Pending {
      FirstPendingMisses(items, from + 1, to);
    }
  }

  /** The new active item is pending whenever any item is. */
  lemma NextActiveIsPending(items: seq<Item>, current: nat)
    requires current < |items|
    ensures NextActive(items, current) < |items|
    ensures PendingCount(items) > 0 ==> items[NextActive(items, current)].outcome == Pending
  {
    FirstPendingMisses(items, current + 1, |items|);
    FirstPendingMisses(items, 0, current);
    CountZero(items);
  }

  /** The search goes on after the current item and then from the front, and takes the first pending item. */
  predicate IsNextPending(items: seq<Item>, current: nat, next: nat) {
    && next < |items|
    && (next != current ==> items[next].outcome == Pending)
    && (next > current ==> NonePending(items, current + 1, next))
    && (next < current ==> NonePending(items, current + 1, |items|) && NonePending(items, 0, next))
    && (next == current ==> NonePending(items, current + 1, |items|) && NonePending(items, 0, current))
  }

  predicate NonePending(items: seq<Item>, from: nat, to: nat) {
    forall k: nat | from <= k < to && k < |items| :: items[k].outcome != Pending
  }

  lemma NextActiveIsNext(items: seq<Item>, current: nat)
    requires current < |items|
    ensures IsNextPending(items, current, NextActive(items, current))
  {
    FirstPendingMisses(items, current + 1, |items|);
    FirstPendingMisses(items, 0, current);
  }

  // ---------------------------------------------------------------- what one call does

  /** The quote is the text between the offsets, as far as the transcript reaches. */
  predicate IsExactQuote(transcript: string, e: Evidence) {
    && |e.quote| == (if e.start >= |transcript| || e.start >= e.end then 0
                     else if e.end <= |transcript| then e.end - e.start else |transcript| - e.start)
    && forall k | 0 <= k < |e.quote| :: e.quote[k] == transcript[e.start + k]
  }

  /** No evidence, or an exact quote that is not empty. */
  predicate MayQuote(transcript: string, evidence: Option<Evidence>) {
    evidence.Some? ==> evidence.value.start < evidence.value.end && IsExactQuote(transcript, evidence.value)
  }

  lemma QuotesMeans(transcript: string, e: Evidence)
    ensures Quotes(transcript, e) <==> IsExactQuote(transcript, e)
  {
    if IsExactQuote(transcript, e) {
      assert Slice(transcript, e.start, e.end) == e.quote;
    }
  }

  lemma AdmitsMeans(transcript: string, evidence: Option<Evidence>)
    ensures Admits(transcript, evidence) <==> MayQuote(transcript, evidence)
  {
    if evidence.Some? {
      QuotesMeans(transcript, evidence.value);
    }
  }

  /** The item with its outcome and exactly those parts of its suggestion that were given. */
  predicate IsReviewed(before: Item, after: Item, outcome: Outcome, c: Changes) {
    var s, t := before.suggestion, after.suggestion;
    && after.id == before.id && after.source == before.source && after.transcript == before.transcript
    && after.outcome == outcome
    && (if c.kind == "" then t.kind == s.kind else t.kind == c.kind)
    && (if c.statement == "" then t.statement == s.statement else t.statement == c.statement)
    && (if c.topics.None? then t.topics == s.topics else t.topics == c.topics.value)
    && (if c.evidence.None? then t.evidence == s.evidence else t.evidence == c.evidence)
  }

  /** The item with its suggestion made of what was given, and its own evidence when none was. */
  predicate IsCorrected(before: Item, after: Item, kind: string, text: string, topics: seq<string>,
                        evidence: Option<Evidence>) {
    var t := after.suggestion;
    && after.id == before.id && after.source == before.source && after.transcript == before.transcript
    && after.outcome == Edited && t.kind == kind && t.statement == text && t.topics == topics
    && (if evidence.None? then t.evidence == before.suggestion.evidence else t.evidence == evidence)
  }

  /** An accepted decision settles exactly the active item, and moves on to a pending one if any is left. */
  lemma ReviewSettlesOne(q: Queue, suggestionId: string, outcome: Outcome, changes: Changes)
    requires QueueOk(q) && Accepts(q, suggestionId, outcome, changes)
    ensures
      var after := Review(q, suggestionId, outcome, changes);
      && QueueOk(after) && |after.items| == |q.items|
      && IsReviewed(q.items[q.currentIndex], after.items[q.currentIndex], outcome, changes)
      && IsNextPending(after.items, q.currentIndex, after.currentIndex)
      && (forall i | 0 <= i < |q.items| && i != q.currentIndex :: after.items[i] == q.items[i])
      && PendingCount(after.items)
         == PendingCount(q.items) - (if q.items[q.currentIndex].outcome == Pending then 1 else 0)
      && ActiveIfAny(after)
  {
    var active := q.items[q.currentIndex];
    var updated := active.(outcome := outcome, suggestion := Changed(active.suggestion, changes));
    CountUpdate(q.items, q.currentIndex, updated);
    NextActiveIsPending(q.items[q.currentIndex := updated], q.currentIndex);
    NextActiveIsNext(q.items[q.currentIndex := updated], q.currentIndex);
  }

  /** When a review is accepted, and what it then does. */
  lemma ReviewMeans(q: Queue, suggestionId: string, outcome: Outcome, changes: Changes)
    requires QueueOk(q) && outcome != Pending
    ensures
      var accepted := Accepts(q, suggestionId, outcome, changes);
      var after, active := Review(q, suggestionId, outcome, changes), q.items[q.currentIndex];
      && QueueOk(after)
      && (accepted <==> active.id == suggestionId && MayQuote(active.transcript, changes.evidence))
      && (accepted ==> |after.items| == |q.items| && IsReviewed(active, after.items[q.currentIndex], outcome, changes))
      && (accepted ==> IsNextPending(after.items, q.currentIndex, after.currentIndex))
      && (accepted && PendingCount(after.items) > 0 ==> after.items[after.currentIndex].outcome == Pending)
      && (!accepted ==> after == q)
  {
    AdmitsMeans(q.items[q.currentIndex].transcript, changes.evidence);
    if Accepts(q, suggestionId, outcome, changes) {
      ReviewSettlesOne(q, suggestionId, outcome, changes);
    }
  }

  /** The active item is pending unless none is. */
  predicate ActiveIfAny(q: Queue) {
    q.currentIndex < |q.items| && (PendingCount(q.items) > 0 ==> q.items[q.currentIndex].outcome == Pending)
  }

  const NO_CHANGES: Changes := Changes("", "", None, None)

  datatype Decision = Decision(outcome: Outcome, changes: Changes)

  /** Decisions on whatever is active, one after the other. */
  function DecideEach(q: Queue, decisions: seq<Decision>): Queue
    requires q.currentIndex < |q.items|
    decreases |decisions|
  {
    if decisions == [] then q
    else
      var next := Review(q, q.items[q.currentIndex].id, decisions[0].outcome, decisions[0].changes);
      if next.currentIndex < |next.items| then DecideEach(next, decisions[1..]) else next
  }

  /** Each decision is accepted when it comes: its evidence quotes the transcript that is active then. */
  predicate AcceptsEach(q: Queue, decisions: seq<Decision>)
    requires q.currentIndex < |q.items|
    decreases |decisions|
  {
    decisions == [] ||
    (var id := q.items[q.currentIndex].id;
     var next := Review(q, id, decisions[0].outcome, decisions[0].changes);
     && Accepts(q, id, decisions[0].outcome, decisions[0].changes)
     && (next.currentIndex < |next.items| ==> AcceptsEach(next, decisions[1..])))
  }

  /**
   * n accepted decisions, whatever they change, leave n fewer pending items and a pending active
   * item while any is left: the queue is done after exactly as many as were pending.
   */
  lemma {:induction false} ReviewsFinish(q: Queue, decisions: seq<Decision>)
    requires QueueOk(q) && ActiveIfAny(q)
    requires |decisions| <= PendingCount(q.items) && AcceptsEach(q, decisions)
    ensures
      var after := DecideEach(q, decisions);
      QueueOk(after) && ActiveIfAny(after) && PendingCount(after.items) == PendingCount(q.items) - |decisions|
    decreases |decisions|
  {
    if decisions != [] {
      var id := q.items[q.currentIndex].id;
      ReviewSettlesOne(q, id, decisions[0].outcome, decisions[0].changes);
      ReviewsFinish(Review(q, id, decisions[0].outcome, decisions[0].changes), decisions[1..]);
    }
  }

  // ---------------------------------------------------------------- what never changes

  /** The same items, apart from their outcomes and suggestions. */
  ghost predicate SameItems(a: seq<Item>, b: seq<Item>) {
    |a| == |b| && forall i | 0 <= i < |a| ::
      a[i].id == b[i].id && a[i].source == b[i].source && a[i].transcript == b[i].transcript
  }

  // ---------------------------------------------------------------- every run of the server

  /**
   * A correction that awaits the gateway: the queue object and the item it holds on to, and what it
   * will write. `position` and `version` say which item, and which writing of it, that was.
   */
  datatype Correction = Correction(queue: nat, position: nat, version: nat, read: Item, corrected: Item, open: bool)

  /**
   * Queue objects are numbered; rendering puts a new object into the map and leaves the old one to
   * the corrections that hold it. `versions` numbers the writings of every item of every queue.
   */
  datatype Server = Server(
    queues: seq<Queue>,
    reviews: map<string, nat>,
    corrections: seq<Correction>,
    versions: seq<seq<nat>>,
    clock: nat)

  datatype Event =
    | Render(reviewId: string, title: string, items: seq<Item>)
    | ReviewActive(reviewId: string, suggestionId: string, outcome: Outcome, changes: Changes)
    | BeginCorrection(reviewId: string, suggestionId: string, kind: string, text: string, topics: seq<string>,
                      evidence: Option<Evidence>)
    | FinishCorrection(index: nat, saved: bool)
    | NavigateReview(reviewId: string, suggestionId: string, direction: Direction)

  const NO_REVIEWS: Server := Server([], map[], [], [], 0)

  function AllPending(items: seq<Item>): (r: seq<Item>)
    ensures |r| == |items|
    ensures forall i | 0 <= i < |r| :: r[i] == items[i].(outcome := Pending)
  {
    seq(|items|, i requires 0 <= i < |items| => items[i].(outcome := Pending))
  }

  /** One wrong quote refuses the items, and the schema refuses an empty list. */
  predicate Renders(items: seq<Item>) {
    items != [] && AllEvidenceOk(items)
  }

  function Rendered(s: Server, reviewId: string, title: string, items: seq<Item>): Server {
    if !Renders(items) then s
    else
      s.(queues := s.queues + [Queue(title, AllPending(items), 0)], reviews := s.reviews[reviewId := |s.queues|],
         versions := s.versions + [Numbers(s.clock, |items|)], clock := s.clock + |items|)
  }

  /** The queue object that `reviewId` stands for. */
  predicate Opens(s: Server, reviewId: string, r: nat) {
    reviewId in s.reviews && s.reviews[reviewId] == r && r < |s.queues|
  }

  function Renumbered(versions: seq<seq<nat>>, r: nat, p: nat, version: nat): seq<seq<nat>> {
    if r < |versions| && p < |versions[r]| then
      var row: seq<nat> := versions[r][p := version];
      versions[r := row]
    else versions
  }

  /** Queue `r` becomes `q`; an item written at `p` gets a new version. */
  function Wrote(s: Server, r: nat, q: Queue, p: nat): Server
    requires r < |s.queues|
  {
    s.(queues := s.queues[r := q], clock := s.clock + 1,
       versions := Renumbered(s.versions, r, p, s.clock))
  }

  function Step(s: Server, e: Event): Server {
    match e
    case Render(reviewId, title, items) => Rendered(s, reviewId, title, items)
    case ReviewActive(reviewId, id, outcome, changes) =>
      if reviewId in s.reviews && s.reviews[reviewId] < |s.queues| then
        var r := s.reviews[reviewId];
        var q := s.queues[r];
        if Accepts(q, id, outcome, changes) then Wrote(s, r, Reviewed(q, outcome, changes), q.currentIndex) else s
      else s
    case NavigateReview(reviewId, id, direction) =>
      if reviewId in s.reviews && s.reviews[reviewId] < |s.queues| then
        var r := s.reviews[reviewId];
        s.(queues := s.queues[r := Navigate(s.queues[r], id, direction)])
      else s
    case BeginCorrection(reviewId, id, kind, text, topics, evidence) =>
      if reviewId in s.reviews && s.reviews[reviewId] < |s.queues| then
        var r := s.reviews[reviewId];
        var q := s.queues[r];
        if IsActive(q, id) && Admits(q.items[q.currentIndex].transcript, evidence) then
          var active := q.items[q.currentIndex];
          s.(corrections := s.corrections
              + [Correction(r, q.currentIndex, VersionOf(s, r, q.currentIndex), active,
                            Corrected(active, kind, text, topics, evidence), true)])
        else s
      else s
    case FinishCorrection(k, saved) =>
      if k < |s.corrections| && s.corrections[k].open && s.corrections[k].queue < |s.queues| then
        var c := s.corrections[k];
        var q := s.queues[c.queue];
        var t := s.(corrections := s.corrections[k := c.(open := false)]);
        if saved then Wrote(t, c.queue, WriteCorrection(q, c.corrected), q.currentIndex) else t
      else s
  }

  function VersionOf(s: Server, r: nat, p: nat): nat {
    if r < |s.versions| && p < |s.versions[r]| then s.versions[r][p] else 0
  }

  function Run(s: Server, events: seq<Event>): Server
    decreases |events|
  {
    if events == [] then s else Run(Step(s, events[0]), events[1..])
  }

  ghost predicate CorrectionsOk(s: Server) {
    forall k: nat | k < |s.corrections| :: s.corrections[k].queue < |s.queues| && EvidenceOk(s.corrections[k].corrected)
  }

  ghost predicate VersionsOk(s: Server) {
    && |s.versions| == |s.queues|
    && forall r: nat | r < |s.queues| :: RowOk(s.versions[r], |s.queues[r].items|, s.clock)
  }

  /** No two items of a queue carry the same version, and none a future one. */
  ghost predicate RowOk(row: seq<nat>, n: nat, clock: nat) {
    && |row| == n
    && (forall p: nat | p < n :: row[p] < clock)
    && (forall p: nat, q: nat | p < q < n :: row[p] != row[q])
  }

  ghost predicate ServerOk(s: Server) {
    && (forall r: nat | r < |s.queues| :: QueueOk(s.queues[r]))
    && (forall id | id in s.reviews :: s.reviews[id] < |s.queues|)
    && CorrectionsOk(s) && VersionsOk(s)
  }

  lemma ReviewedKeepsOk(q: Queue, id: string, outcome: Outcome, changes: Changes)
    requires QueueOk(q)
    ensures QueueOk(Review(q, id, outcome, changes)) && |Review(q, id, outcome, changes).items| == |q.items|
  {
    if Accepts(q, id, outcome, changes) {
      ReviewSettlesOne(q, id, outcome, changes);
    }
  }

  lemma WritingKeepsOk(s: Server, r: nat, q: Queue, p: nat)
    requires ServerOk(s) && r < |s.queues| && QueueOk(q) && |q.items| == |s.queues[r].items| && p < |q.items|
    ensures ServerOk(Wrote(s, r, q, p))
  {
    var t := Wrote(s, r, q, p);
    forall k: nat | k < |t.queues| ensures RowOk(t.versions[k], |t.queues[k].items|, t.clock) {
      assert RowOk(s.versions[k], |s.queues[k].items|, s.clock);
    }
  }

  lemma StepKeepsServerOk(s: Server, e: Event)
    requires ServerOk(s)
    ensures ServerOk(Step(s, e))
  {
    match e {
      case Render(_, _, items) =>
        var t := Step(s, e);
        forall k: nat | k < |t.queues| ensures RowOk(t.versions[k], |t.queues[k].items|, t.clock) {
          if k < |s.queues| {
            assert RowOk(s.versions[k], |s.queues[k].items|, s.clock);
          }
        }
      case ReviewActive(reviewId, id, outcome, changes) =>
        if reviewId in s.reviews {
          var q := s.queues[s.reviews[reviewId]];
          ReviewedKeepsOk(q, id, outcome, changes);
          if Accepts(q, id, outcome, changes) {
            WritingKeepsOk(s, s.reviews[reviewId], Reviewed(q, outcome, changes), q.currentIndex);
          }
        }
      case NavigateReview(reviewId, id, direction) =>
        var t := Step(s, e);
        forall k: nat | k < |t.queues| ensures RowOk(t.versions[k], |t.queues[k].items|, t.clock) {
          assert RowOk(s.versions[k], |s.queues[k].items|, s.clock);
        }
      case BeginCorrection(_, _, _, _, _, _) =>
        BeginningKeepsOk(s, e);
      case FinishCorrection(k, saved) =>
        if k < |s.corrections| && s.corrections[k].open {
          var c := s.corrections[k];
          var t := s.(corrections := s.corrections[k := c.(open := false)]);
          assert ServerOk(t);
          if saved {
            WritingKeepsOk(t, c.queue, WriteCorrection(s.queues[c.queue], c.corrected), s.queues[c.queue].currentIndex);
          }
        }
    }
  }

  lemma BeginningKeepsOk(s: Server, e: Event)
    requires ServerOk(s) && e.BeginCorrection?
    ensures ServerOk(Step(s, e))
  {
    var t := Step(s, e);
    forall k: nat | k < |t.corrections|
      ensures t.corrections[k].queue < |t.queues| && EvidenceOk(t.corrections[k].corrected)
    {
      if k == |s.corrections| {
        var q := s.queues[s.reviews[e.reviewId]];
        assert EvidenceOk(q.items[q.currentIndex]);
      }
    }
  }

  lemma {:induction false} RunKeepsServerOk(s: Server, events: seq<Event>)
    requires ServerOk(s)
    ensures ServerOk(Run(s, events))
    decreases |events|
  {
    if events != [] {
      StepKeepsServerOk(s, events[0]);
      RunKeepsServerOk(Step(s, events[0]), events[1..]);
    }
  }

  /** In every run, corrections in flight included, each queue shows an item of its own and quotes exactly. */
  lemma EveryReviewRun(events: seq<Event>)
    ensures forall id | id in Run(NO_REVIEWS, events).reviews ::
      var s := Run(NO_REVIEWS, events);
      s.reviews[id] < |s.queues| && QueueOk(s.queues[s.reviews[id]])
  {
    RunKeepsServerOk(NO_REVIEWS, events);
  }

  // ---------------------------------------------------------------- what an event does to one queue

  /** An accepted decision on queue `r`. */
  predicate Decides(s: Server, e: Event, r: nat) {
    e.ReviewActive? && Opens(s, e.reviewId, r) && Accepts(s.queues[r], e.suggestionId, e.outcome, e.changes)
  }

  /** A saved correction written to queue `r`. */
  predicate Saves(s: Server, e: Event, r: nat) {
    && e.FinishCorrection? && e.saved && e.index < |s.corrections|
    && s.corrections[e.index].open && s.corrections[e.index].queue == r && r < |s.queues|
  }

  predicate Moves(s: Server, e: Event, r: nat) {
    e.NavigateReview? && Opens(s, e.reviewId, r) && IsActive(s.queues[r], e.suggestionId)
  }

  /** The event writes item `p` of queue `r`: it decides on it or saves a correction there. */
  predicate Writes(s: Server, e: Event, r: nat, p: nat) {
    (Decides(s, e, r) || Saves(s, e, r)) && s.queues[r].currentIndex == p
  }

  /** Some event of the run writes item `p` of queue `r`. */
  predicate Written(s: Server, events: seq<Event>, r: nat, p: nat)
    decreases |events|
  {
    events != [] && (Writes(s, events[0], r, p) || Written(Step(s, events[0]), events[1..], r, p))
  }

  lemma StepOnQueue(s: Server, e: Event, r: nat, p: nat)
    requires ServerOk(s) && r < |s.queues| && p < |s.queues[r].items|
    ensures
      var t := Step(s, e);
      && r < |t.queues| && |t.queues[r].items| == |s.queues[r].items| && t.clock >= s.clock
      && (!Writes(s, e, r, p) ==> t.versions[r][p] == s.versions[r][p] && t.queues[r].items[p] == s.queues[r].items[p])
      && (Writes(s, e, r, p) ==> t.versions[r][p] >= s.clock)
      && (!Decides(s, e, r) && !Saves(s, e, r) && !Moves(s, e, r) ==> t.queues[r] == s.queues[r])
  {
    assert RowOk(s.versions[r], |s.queues[r].items|, s.clock);
  }

  /** What each accepted call writes to its queue. */
  lemma StepWrites(s: Server, e: Event, r: nat)
    requires ServerOk(s) && r < |s.queues|
    ensures
      var q, t := s.queues[r], Step(s, e);
      && r < |t.queues| && |t.queues[r].items| == |q.items| && t.queues[r].title == q.title
      && (Decides(s, e, r) ==>
            && IsReviewed(q.items[q.currentIndex], t.queues[r].items[q.currentIndex], e.outcome, e.changes)
            && IsNextPending(t.queues[r].items, q.currentIndex, t.queues[r].currentIndex))
      && (Saves(s, e, r) ==>
            t.queues[r].items[q.currentIndex] == s.corrections[e.index].corrected
            && t.queues[r].currentIndex == q.currentIndex)
      && (e.FinishCorrection? && e.index < |t.corrections| ==> !t.corrections[e.index].open)
      && (Moves(s, e, r) ==>
            var to := if e.direction == Next then q.currentIndex + 1 else q.currentIndex - 1;
            && t.queues[r].items == q.items
            && t.queues[r].currentIndex == if 0 <= to < |q.items| then to else q.currentIndex)
  {
    if Decides(s, e, r) {
      ReviewSettlesOne(s.queues[r], e.suggestionId, e.outcome, e.changes);
    }
  }

  /** No correction of the run is saved to queue `r`. */
  predicate NoneSaved(s: Server, events: seq<Event>, r: nat)
    decreases |events|
  {
    events == [] || (!Saves(s, events[0], r) && NoneSaved(Step(s, events[0]), events[1..], r))
  }

  lemma StepKeepsItems(s: Server, e: Event, r: nat)
    requires ServerOk(s) && r < |s.queues| && !Saves(s, e, r)
    ensures r < |Step(s, e).queues| && SameItems(s.queues[r].items, Step(s, e).queues[r].items)
  {
    StepWrites(s, e, r);
    StepOnQueue(s, e, r, s.queues[r].currentIndex);
    var q, t := s.queues[r], Step(s, e);
    forall i | 0 <= i < |q.items|
      ensures
        var a, b := q.items[i], t.queues[r].items[i];
        a.id == b.id && a.source == b.source && a.transcript == b.transcript
    {
      StepOnQueue(s, e, r, i);
    }
  }

  /** Whatever is decided, moved, rendered or begun, a queue's items stay in their places, with identity and text. */
  lemma {:induction false} RunKeepsItems(s: Server, events: seq<Event>, r: nat)
    requires ServerOk(s) && r < |s.queues| && NoneSaved(s, events, r)
    ensures r < |Run(s, events).queues| && SameItems(s.queues[r].items, Run(s, events).queues[r].items)
    decreases |events|
  {
    if events != [] {
      var t := Step(s, events[0]);
      StepKeepsItems(s, events[0], r);
      StepKeepsServerOk(s, events[0]);
      RunKeepsItems(t, events[1..], r);
    }
  }

  /** A render puts a new queue, all of it pending and its first item active, in the place of the review's old one. */
  lemma RenderMakesAQueue(s: Server, reviewId: string, title: string, items: seq<Item>)
    requires ServerOk(s) && items != [] && forall i | 0 <= i < |items| :: EvidenceOk(items[i])
    ensures
      var t, r := Step(s, Render(reviewId, title, items)), |s.queues|;
      && |t.queues| == r + 1 && t.queues[..r] == s.queues && t.reviews == s.reviews[reviewId := r]
      && t.queues[r].title == title && t.queues[r].currentIndex == 0 && |t.queues[r].items| == |items|
      && forall i | 0 <= i < |items| :: t.queues[r].items[i] == items[i].(outcome := Pending)
  {
  }

  /** The version of an item tells whether the run has written it. */
  lemma {:induction false} VersionTells(s: Server, events: seq<Event>, r: nat, p: nat)
    requires ServerOk(s) && r < |s.queues| && p < |s.queues[r].items|
    ensures
      var t := Run(s, events);
      && ServerOk(t) && r < |t.queues| && |t.queues[r].items| == |s.queues[r].items| && t.clock >= s.clock
      && (!Written(s, events, r, p) ==>
          t.versions[r][p] == s.versions[r][p] && t.queues[r].items[p] == s.queues[r].items[p])
      && (Written(s, events, r, p) ==> t.versions[r][p] >= s.clock)
    decreases |events|
  {
    if events != [] {
      StepOnQueue(s, events[0], r, p);
      StepKeepsServerOk(s, events[0]);
      VersionTells(Step(s, events[0]), events[1..], r, p);
      assert ServerOk(Run(s, events));
    }
  }

  // ---------------------------------------------------------------- a correction across its await

  predicate Begins(s: Server, e: Event, r: nat) {
    && e.BeginCorrection? && Opens(s, e.reviewId, r) && IsActive(s.queues[r], e.suggestionId)
    && Admits(s.queues[r].items[s.queues[r].currentIndex].transcript, e.evidence)
  }

  /** Until it is answered, a correction keeps what it read and what it will write. */
  lemma {:induction false} CorrectionStays(s: Server, events: seq<Event>, k: nat)
    requires k < |s.corrections|
    ensures
      var t := Run(s, events);
      k < |t.corrections| && (t.corrections[k].open ==> t.corrections[k] == s.corrections[k])
    decreases |events|
  {
    if events != [] {
      CorrectionStays(Step(s, events[0]), events[1..], k);
    }
  }

  /** No accepted decision, move or saved correction on queue `r`: what a caller can see to during the await. */
  predicate Quiet(s: Server, events: seq<Event>, r: nat)
    decreases |events|
  {
    events == [] ||
    (&& !Decides(s, events[0], r) && !Saves(s, events[0], r) && !Moves(s, events[0], r)
     && Quiet(Step(s, events[0]), events[1..], r))
  }

  lemma {:induction false} QuietKeepsQueue(s: Server, events: seq<Event>, r: nat)
    requires ServerOk(s) && r < |s.queues| && Quiet(s, events, r)
    ensures var t := Run(s, events); r < |t.queues| && t.queues[r] == s.queues[r]
    ensures forall p: nat :: !Written(s, events, r, p)
    decreases |events|
  {
    if events != [] {
      StepOnQueue(s, events[0], r, s.queues[r].currentIndex);
      StepKeepsServerOk(s, events[0]);
      QuietKeepsQueue(Step(s, events[0]), events[1..], r);
    }
  }

  /** The correction replaces item `i` and no other. */
  predicate ReplacesOnly(before: Queue, after: Queue, i: nat, corrected: Item) {
    i < |before.items| && after == before.(items := before.items[i := corrected])
  }

  /** The writing that the correction replaces is the one it read: nothing decided since is lost. */
  predicate LosesNothing(t: Server, k: nat) {
    k < |t.corrections| && t.corrections[k].queue < |t.queues| &&
    VersionOf(t, t.corrections[k].queue, t.queues[t.corrections[k].queue].currentIndex) == t.corrections[k].version
  }

  predicate Unanswered(t: Server, k: nat) {
    k < |t.corrections| && t.corrections[k].open
  }

  /**
   * A correction that was accepted with item i of queue r active, any events, then the gateway's
   * answer. It replaces item i alone exactly when i is the current position again, or both items
   * already are what it writes; and it replaces what it read, losing no decision, exactly when i is
   * the current position again and no decision or other correction has written item i meanwhile.
   */
  lemma CorrectionAcrossTheAwait(s: Server, begin: Event, r: nat, events: seq<Event>)
    requires ServerOk(s) && Begins(s, begin, r)
    requires Unanswered(Run(Step(s, begin), events), |s.corrections|)
    ensures
      var k, i := |s.corrections|, s.queues[r].currentIndex;
      var t := Run(Step(s, begin), events);
      var u, c := Step(t, FinishCorrection(k, true)), t.corrections[k];
      && r < |t.queues| && r < |u.queues|
      && i < |t.queues[r].items| && t.queues[r].currentIndex < |t.queues[r].items| == |u.queues[r].items|
      && c.corrected == Corrected(s.queues[r].items[i], begin.kind, begin.text, begin.topics, begin.evidence)
      && IsCorrected(s.queues[r].items[i], c.corrected, begin.kind, begin.text, begin.topics, begin.evidence)
      && u.queues[r].items[t.queues[r].currentIndex] == c.corrected
      && (ReplacesOnly(t.queues[r], u.queues[r], i, c.corrected) <==>
            || t.queues[r].currentIndex == i
            || (t.queues[r].items[t.queues[r].currentIndex] == c.corrected && t.queues[r].items[i] == c.corrected))
      && (LosesNothing(t, k) <==> t.queues[r].currentIndex == i && !Written(Step(s, begin), events, r, i))
      && (LosesNothing(t, k) ==> t.queues[r].items[i] == s.queues[r].items[i])
  {
    var k, i := |s.corrections|, s.queues[r].currentIndex;
    var s0, t := Step(s, begin), Run(Step(s, begin), events);
    StepKeepsServerOk(s, begin);
    CorrectionStays(s0, events, k);
    assert s0.corrections[k].position == i && s0.corrections[k].version == s.versions[r][i];
    VersionTells(s0, events, r, i);
    var j := t.queues[r].currentIndex;
    VersionTells(s0, events, r, j);
    assert RowOk(s0.versions[r], |s0.queues[r].items|, s0.clock);
    WritingOneItem(t.queues[r], i, j, t.corrections[k].corrected);
  }

  lemma WritingOneItem(q: Queue, i: nat, j: nat, item: Item)
    requires i < |q.items| && j < |q.items|
    ensures q.items[j := item] == q.items[i := item] <==> j == i || (q.items[j] == item && q.items[i] == item)
  {
    assert q.items[j := item][i] == if i == j then item else q.items[i];
    assert q.items[i := item][j] == if i == j then item else q.items[j];
  }

  predicate Rerenders(e: Event, reviewId: string) {
    e.Render? && e.reviewId == reviewId && Renders(e.items)
  }

  /** Some event of the run renders this review anew. */
  predicate Rerendered(events: seq<Event>, reviewId: string)
    decreases |events|
  {
    events != [] && (Rerenders(events[0], reviewId) || Rerendered(events[1..], reviewId))
  }

  /** What a review ID opens, at its current position, is the writing with this number. */
  predicate ShowsWriting(s: Server, reviewId: string, version: nat) {
    && reviewId in s.reviews && s.reviews[reviewId] < |s.queues|
    && VersionOf(s, s.reviews[reviewId], s.queues[s.reviews[reviewId]].currentIndex) == version
  }

  /** A review ID goes on opening the same queue object exactly as long as it is not rendered anew. */
  lemma {:induction false} OpensUnlessRerendered(s: Server, events: seq<Event>, reviewId: string, r: nat)
    requires ServerOk(s) && r < |s.queues| && reviewId in s.reviews
    ensures reviewId in Run(s, events).reviews
    ensures Opens(s, reviewId, r) ==> (Opens(Run(s, events), reviewId, r) <==> !Rerendered(events, reviewId))
    ensures !Opens(s, reviewId, r) ==> !Opens(Run(s, events), reviewId, r)
    decreases |events|
  {
    if events != [] {
      StepKeepsServerOk(s, events[0]);
      StepOpens(s, events[0], reviewId, r);
      OpensUnlessRerendered(Step(s, events[0]), events[1..], reviewId, r);
    }
  }

  lemma StepOpens(s: Server, e: Event, reviewId: string, r: nat)
    requires ServerOk(s) && r < |s.queues| && reviewId in s.reviews
    ensures r < |Step(s, e).queues| && reviewId in Step(s, e).reviews
    ensures Opens(Step(s, e), reviewId, r) <==> Opens(s, reviewId, r) && !Rerenders(e, reviewId)
  {
  }

  /**
   * Where the writing of an answered correction can be seen: the review that it was begun on shows
   * it, at its current position, if and only if that review was not rendered anew meanwhile.
   */
  lemma ReviewShowsTheCorrection(s: Server, begin: Event, r: nat, events: seq<Event>)
    requires ServerOk(s) && Begins(s, begin, r)
    requires Unanswered(Run(Step(s, begin), events), |s.corrections|)
    ensures
      var t := Run(Step(s, begin), events);
      ShowsWriting(Step(t, FinishCorrection(|s.corrections|, true)), begin.reviewId, t.clock)
      <==> !Rerendered(events, begin.reviewId)
  {
    var s0, t := Step(s, begin), Run(Step(s, begin), events);
    StepKeepsServerOk(s, begin);
    RunKeepsServerOk(s0, events);
    CorrectionStays(s0, events, |s.corrections|);
    OpensUnlessRerendered(s0, events, begin.reviewId, r);
    FinishShows(t, |s.corrections|, begin.reviewId);
  }

  /** The new number is found where the correction was written, and nowhere else. */
  lemma FinishShows(t: Server, k: nat, reviewId: string)
    requires ServerOk(t) && Unanswered(t, k) && reviewId in t.reviews
    ensures ShowsWriting(Step(t, FinishCorrection(k, true)), reviewId, t.clock)
        <==> Opens(t, reviewId, t.corrections[k].queue)
  {
    var c, o := t.corrections[k], t.reviews[reviewId];
    assert RowOk(t.versions[o], |t.queues[o].items|, t.clock);
    assert RowOk(t.versions[c.queue], |t.queues[c.queue].items|, t.clock);
    assert QueueOk(t.queues[o]) && QueueOk(t.queues[c.queue]);
  }

  /** What a caller can do to be safe: keep every other accepted call off the queue until the answer. */
  lemma QuietAwaitIsSafe(s: Server, begin: Event, r: nat, events: seq<Event>)
    requires ServerOk(s) && Begins(s, begin, r) && Quiet(Step(s, begin), events, r)
    requires Unanswered(Run(Step(s, begin), events), |s.corrections|)
    ensures
      var k, t := |s.corrections|, Run(Step(s, begin), events);
      && LosesNothing(t, k) && r < |t.queues| && (Opens(t, begin.reviewId, r) <==> !Rerendered(events, begin.reviewId))
      && ReplacesOnly(s.queues[r], Step(t, FinishCorrection(k, true)).queues[r], s.queues[r].currentIndex,
                      Corrected(s.queues[r].items[s.queues[r].currentIndex], begin.kind, begin.text, begin.topics,
                                begin.evidence))
  {
    StepKeepsServerOk(s, begin);
    QuietKeepsQueue(Step(s, begin), events, r);
    OpensUnlessRerendered(Step(s, begin), events, begin.reviewId, r);
    CorrectionAcrossTheAwait(s, begin, r, events);
  }

  // ---------------------------------------------------------------- runs that lose something

  lemma RunFour(s: Server, a: Event, b: Event, c: Event, d: Event)
    ensures Run(s, [a, b, c, d]) == Step(Step(Step(Step(s, a), b), c), d)
  {
    assert [a, b, c, d][1..] == [b, c, d] && [b, c, d][1..] == [c, d] && [c, d][1..] == [d] && [d][1..] == [];
    assert Run(Step(Step(Step(s, a), b), c), [d]) == Step(Step(Step(Step(s, a), b), c), d);
    assert Run(Step(Step(s, a), b), [c, d]) == Run(Step(Step(Step(s, a), b), c), [d]);
    assert Run(Step(s, a), [b, c, d]) == Run(Step(Step(s, a), b), [c, d]);
  }

  /** The server after rendering one queue and beginning a correction of its first item. */
  lemma FirstCorrection(id: string, title: string, items: seq<Item>, kind: string, text: string, topics: seq<string>)
    requires Renders(items)
    ensures
      var s := Step(Step(NO_REVIEWS, Render(id, title, items)),
                    BeginCorrection(id, items[0].id, kind, text, topics, None));
      var first := items[0].(outcome := Pending);
      && s.queues == [Queue(title, AllPending(items), 0)] && Opens(s, id, 0)
      && |s.corrections| == 1 && s.corrections[0].open && s.corrections[0].queue == 0
      && s.corrections[0].corrected == Corrected(first, kind, text, topics, None)
  {
    var s1 := Step(NO_REVIEWS, Render(id, title, items));
    assert s1.queues == [Queue(title, AllPending(items), 0)];
    assert IsActive(s1.queues[0], items[0].id);
  }

  lemma SavingWrites(s: Server, q: Queue)
    requires s.queues == [q] && |s.corrections| == 1 && s.corrections[0].open && s.corrections[0].queue == 0
    requires q.currentIndex < |q.items|
    ensures Step(s, FinishCorrection(0, true)).queues
         == [q.(items := q.items[q.currentIndex := s.corrections[0].corrected])]
  {
  }

  /** A move during the await: the correction of the first item overwrites the second, whatever their IDs. */
  lemma MoveLosesTheOtherItem(id: string, title: string, a: Item, b: Item, kind: string, text: string,
                              topics: seq<string>)
    requires EvidenceOk(a) && EvidenceOk(b)
    ensures
      var s := Run(NO_REVIEWS, [Render(id, title, [a, b]), BeginCorrection(id, a.id, kind, text, topics, None),
                                NavigateReview(id, a.id, Next), FinishCorrection(0, true)]);
      var first := a.(outcome := Pending);
      s.queues == [Queue(title, [first, Corrected(first, kind, text, topics, None)], 1)]
  {
    var render, begin := Render(id, title, [a, b]), BeginCorrection(id, a.id, kind, text, topics, None);
    var move, finish := NavigateReview(id, a.id, Next), FinishCorrection(0, true);
    var s2 := Step(Step(NO_REVIEWS, render), begin);
    FirstCorrection(id, title, [a, b], kind, text, topics);
    assert AllPending([a, b]) == [a.(outcome := Pending), b.(outcome := Pending)];
    var s3 := Step(s2, move);
    assert s3.queues == [Queue(title, AllPending([a, b]), 1)];
    assert s3.corrections == s2.corrections;
    SavingWrites(s3, Queue(title, AllPending([a, b]), 1));
    RunFour(NO_REVIEWS, render, begin, move, finish);
    var first := a.(outcome := Pending);
    var c := Corrected(first, kind, text, topics, None);
    assert s3.corrections[0].corrected == c;
    assert AllPending([a, b])[1 := c] == [first, c];
    assert Step(s3, finish).queues == [Queue(title, [first, c], 1)];
    assert Run(NO_REVIEWS, [render, begin, move, finish]) == Step(s3, finish);
  }

  /** A rejection during the await is overwritten by "edited", on the same item. */
  lemma RejectionIsOverwritten(id: string, title: string, a: Item, kind: string, text: string, topics: seq<string>)
    requires EvidenceOk(a)
    ensures
      var begin := BeginCorrection(id, a.id, kind, text, topics, None);
      var reject := ReviewActive(id, a.id, Rejected, NO_CHANGES);
      var s := Run(NO_REVIEWS, [Render(id, title, [a]), begin, reject, FinishCorrection(0, true)]);
      var rejected := Step(Step(Step(NO_REVIEWS, Render(id, title, [a])), begin), reject);
      && rejected.queues == [Queue(title, [a.(outcome := Rejected)], 0)]
      && s.queues == [Queue(title, [Corrected(a, kind, text, topics, None)], 0)]
  {
    var render, begin := Render(id, title, [a]), BeginCorrection(id, a.id, kind, text, topics, None);
    var reject, finish := ReviewActive(id, a.id, Rejected, NO_CHANGES), FinishCorrection(0, true);
    var s2 := Step(Step(NO_REVIEWS, render), begin);
    FirstCorrection(id, title, [a], kind, text, topics);
    var pending := a.(outcome := Pending);
    assert AllPending([a]) == [pending];
    assert Changed(a.suggestion, NO_CHANGES) == a.suggestion;
    assert Reviewed(s2.queues[0], Rejected, NO_CHANGES) == Queue(title, [a.(outcome := Rejected)], 0);
    var s3 := Step(s2, reject);
    assert s3.queues == [Queue(title, [a.(outcome := Rejected)], 0)];
    assert s3.corrections == s2.corrections;
    assert Corrected(pending, kind, text, topics, None) == Corrected(a, kind, text, topics, None);
    SavingWrites(s3, Queue(title, [a.(outcome := Rejected)], 0));
    RunFour(NO_REVIEWS, render, begin, reject, finish);
    var c := Corrected(a, kind, text, topics, None);
    assert s3.corrections[0].corrected == c;
    assert [a.(outcome := Rejected)][0 := c] == [c];
    assert Step(s3, finish).queues == [Queue(title, [c], 0)];
    assert Run(NO_REVIEWS, [render, begin, reject, finish]) == Step(s3, finish);
  }

  /** A new render during the await: the correction is written to a queue that nothing opens any more. */
  lemma RenderHidesTheCorrection(id: string, title: string, a: Item, kind: string, text: string, topics: seq<string>)
    requires EvidenceOk(a)
    ensures
      var begin := BeginCorrection(id, a.id, kind, text, topics, None);
      var s := Run(NO_REVIEWS, [Render(id, title, [a]), begin, Render(id, title, [a]), FinishCorrection(0, true)]);
      && s.queues == [Queue(title, [Corrected(a, kind, text, topics, None)], 0),
                      Queue(title, [a.(outcome := Pending)], 0)]
      && Opens(s, id, 1)
  {
    var render, begin := Render(id, title, [a]), BeginCorrection(id, a.id, kind, text, topics, None);
    var finish := FinishCorrection(0, true);
    var s2 := Step(Step(NO_REVIEWS, render), begin);
    FirstCorrection(id, title, [a], kind, text, topics);
    var pending := a.(outcome := Pending);
    assert AllPending([a]) == [pending];
    var s3 := Step(s2, render);
    assert s3.queues == [Queue(title, [pending], 0), Queue(title, [pending], 0)] && Opens(s3, id, 1);
    assert s3.corrections == s2.corrections;
    var c := Corrected(a, kind, text, topics, None);
    assert Corrected(pending, kind, text, topics, None) == c && s3.corrections[0].corrected == c;
    RunFour(NO_REVIEWS, render, begin, render, finish);
    assert [pending][0 := c] == [c];
    assert Step(s3, finish).queues == [Queue(title, [c], 0), Queue(title, [pending], 0)];
    assert Run(NO_REVIEWS, [render, begin, render, finish]) == Step(s3, finish);
  }

  // ---------------------------------------------------------------- runs of decisions

  /** Nothing but decisions is accepted on queue `r`; other queues and refused calls do not matter. */
  predicate OnlyDecisions(s: Server, events: seq<Event>, r: nat)
    decreases |events|
  {
    events == [] ||
    (!Saves(s, events[0], r) && !Moves(s, events[0], r) && OnlyDecisions(Step(s, events[0]), events[1..], r))
  }

  function DecisionsOn(s: Server, events: seq<Event>, r: nat): nat
    decreases |events|
  {
    if events == [] then 0
    else (if Decides(s, events[0], r) then 1 else 0) + DecisionsOn(Step(s, events[0]), events[1..], r)
  }

  lemma {:induction false} DecisionsFinish(s: Server, events: seq<Event>, r: nat)
    requires ServerOk(s) && r < |s.queues| && ActiveIfAny(s.queues[r]) && OnlyDecisions(s, events, r)
    ensures
      var t, n, before := Run(s, events), DecisionsOn(s, events, r), PendingCount(s.queues[r].items);
      && r < |t.queues| && ActiveIfAny(t.queues[r])
      && PendingCount(t.queues[r].items) == if n < before then before - n else 0
    decreases |events|
  {
    if events != [] {
      var q := s.queues[r];
      StepOnQueue(s, events[0], r, q.currentIndex);
      StepKeepsServerOk(s, events[0]);
      if Decides(s, events[0], r) {
        ReviewSettlesOne(q, events[0].suggestionId, events[0].outcome, events[0].changes);
        CountZero(q.items);
      }
      DecisionsFinish(Step(s, events[0]), events[1..], r);
    }
  }

  lemma {:induction false} AllPendingCount(items: seq<Item>)
    ensures PendingCount(AllPending(items)) == |items|
  {
    if items != [] {
      AllPendingCount(items[1..]);
      assert AllPending(items)[1..] == AllPending(items[1..]);
    }
  }

  /**
   * A freshly rendered queue of n items, whatever happens on other queues and whatever is refused:
   * with only decisions accepted on it, it is done exactly when n have been accepted, and shows a
   * pending item until then.
   */
  lemma FreshQueueFinishes(s: Server, reviewId: string, title: string, items: seq<Item>, events: seq<Event>)
    requires ServerOk(s) && Renders(items)
    requires OnlyDecisions(Step(s, Render(reviewId, title, items)), events, |s.queues|)
    ensures
      var s0, r := Step(s, Render(reviewId, title, items)), |s.queues|;
      var t, n := Run(s0, events), DecisionsOn(s0, events, r);
      && Opens(s0, reviewId, r) && r < |t.queues| && ActiveIfAny(t.queues[r])
      && PendingCount(t.queues[r].items) == if n < |items| then |items| - n else 0
  {
    var s0, r := Step(s, Render(reviewId, title, items)), |s.queues|;
    StepKeepsServerOk(s, Render(reviewId, title, items));
    AllPendingCount(items);
    assert s0.queues[r].items == AllPending(items);
    DecisionsFinish(s0, events, r);
  }

  // ---------------------------------------------------------------- the queue object

  datatype Progress = Progress(current: nat, total: nat, reviewed: nat)

  class ReviewQueue {
    var title: string
    var items: seq<Item>
    var currentIndex: nat

    function Value(): Queue
      reads this
    {
      Queue(title, items, currentIndex)
    }

    constructor (title: string, items: seq<Item>)
      requires items != [] && AllEvidenceOk(items)
      ensures this.title == title && this.items == items && QueueOk(Value())
    {
      this.title, this.items, currentIndex := title, items, 0;
    }

    /** `presentationAt`: what is reviewed and what is pending make up the whole queue. */
    method Present() returns (item: Item, progress: Progress)
      requires QueueOk(Value())
      ensures item == items[currentIndex] && EvidenceOk(item)
      ensures 0 < progress.current <= progress.total == |items|
      ensures progress.reviewed + PendingCount(items) == progress.total
    {
      var reviewed := 0;
      for i := 0 to |items|
        invariant reviewed + PendingCount(items[..i]) == i
      {
        CountSnoc(items[..i], items[i]);
        assert items[..i + 1] == items[..i] + [items[i]];
        if items[i].outcome != Pending {
          reviewed := reviewed + 1;
        }
      }
      assert items[..|items|] == items;
      return items[currentIndex], Progress(currentIndex + 1, |items|, reviewed);
    }

    method ReviewActive(suggestionId: string, outcome: Outcome, changes: Changes) returns (accepted: bool)
      requires QueueOk(Value()) && outcome != Pending
      modifies this
      ensures Value() == Review(old(Value()), suggestionId, outcome, changes) && QueueOk(Value())
      ensures accepted <==>
        old(items)[old(currentIndex)].id == suggestionId
        && MayQuote(old(items)[old(currentIndex)].transcript, changes.evidence)
      ensures accepted && PendingCount(items) > 0 ==> items[currentIndex].outcome == Pending
      ensures accepted ==> IsReviewed(old(items)[old(currentIndex)], items[old(currentIndex)], outcome, changes)
      ensures accepted ==> IsNextPending(items, old(currentIndex), currentIndex)
      ensures !accepted ==> Value() == old(Value())
    {
      ReviewMeans(Value(), suggestionId, outcome, changes);
      var active := items[currentIndex];
      if active.id != suggestionId {
        return false;
      }
      if changes.evidence.Some? {
        var e := changes.evidence.value;
        if e.end <= e.start || Slice(active.transcript, e.start, e.end) != e.quote {
          return false;
        }
      }
      items := items[currentIndex := active.(outcome := outcome, suggestion := Changed(active.suggestion, changes))];
      var next := FirstPending(items, currentIndex + 1, |items|);
      if next < |items| {
        currentIndex := next;
      } else {
        var wrapped := FirstPending(items, 0, currentIndex);
        if wrapped < currentIndex {
          currentIndex := wrapped;
        }
      }
      return true;
    }

    method NavigateReview(suggestionId: string, direction: Direction)
      requires QueueOk(Value())
      modifies this
      ensures Value() == Navigate(old(Value()), suggestionId, direction) && QueueOk(Value())
      ensures items == old(items)
      ensures
        var to := if direction == Next then old(currentIndex) + 1 else old(currentIndex) - 1;
        currentIndex
          == if items[old(currentIndex)].id == suggestionId && 0 <= to < |items| then to else old(currentIndex)
    {
      if items[currentIndex].id != suggestionId {
        return;
      }
      var next := if direction == Next then currentIndex + 1 else currentIndex - 1;
      if 0 <= next < |items| {
        currentIndex := next;
      }
    }

    /** The part of a correction before the gateway is asked: what it will write, if it is accepted. */
    method BeginCorrection(suggestionId: string, kind: string, text: string, topics: seq<string>,
                           evidence: Option<Evidence>)
      returns (corrected: Option<Item>)
      requires QueueOk(Value())
      ensures corrected.Some? <==>
        items[currentIndex].id == suggestionId && MayQuote(items[currentIndex].transcript, evidence)
      ensures corrected.Some? ==> IsCorrected(items[currentIndex], corrected.value, kind, text, topics, evidence)
      ensures corrected.Some? ==>
        && corrected.value == Corrected(items[currentIndex], kind, text, topics, evidence)
        && EvidenceOk(corrected.value) && corrected.value.outcome == Edited
    {
      var active := items[currentIndex];
      AdmitsMeans(active.transcript, evidence);
      if active.id != suggestionId {
        return None;
      }
      if evidence.Some? {
        var e := evidence.value;
        if e.end <= e.start || Slice(active.transcript, e.start, e.end) != e.quote {
          return None;
        }
      }
      assert EvidenceOk(active);
      return Some(Corrected(active, kind, text, topics, evidence));
    }

    /** The part of a correction after the gateway has answered. */
    method SaveCorrection(corrected: Item)
      requires QueueOk(Value()) && EvidenceOk(corrected)
      modifies this
      ensures Value() == WriteCorrection(old(Value()), corrected) && QueueOk(Value())
      ensures currentIndex == old(currentIndex) && items == old(items)[currentIndex := corrected]
    {
      items := items[currentIndex := corrected];
    }
  }

  lemma {:induction false} CountSnoc(items: seq<Item>, item: Item)
    ensures PendingCount(items + [item]) == PendingCount(items) + if item.outcome == Pending then 1 else 0
  {
    if items == [] {
      assert [item][1..] == [];
    } else {
      assert (items + [item])[1..] == items[1..] + [item];
      CountSnoc(items[1..], item);
    }
  }
}

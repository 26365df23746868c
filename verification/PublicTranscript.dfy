/**
 * The browser's transcript: a reducer that keeps 200 entries and 24000 characters of text in each,
 * compared with a reference that keeps everything.
 */
module PublicTranscripts {
  import opened Collections
  import opened Decimals

  const MAX_ENTRIES: nat := 200
  const MAX_TEXT: nat := 24_000

  datatype Role = User | Assistant | Tool

  datatype Status = NoStatus | Running | Completed | Failed

  datatype Entry = Entry(id: string, timestamp: int, role: Role, text: string, status: Status)

  datatype Transcript = Transcript(entries: seq<Entry>, nextId: nat, revision: nat)

  const EMPTY: Transcript := Transcript([], 1, 0)

  datatype Event =
    | Append(entry: Entry, generatedId: bool)
    | AssistantDelta(id: string, delta: string)
    | AssistantFinished(id: string)
    | ToolFinished(id: string, failed: bool)
    | Reset
    | Replace(entries: seq<Entry>)

  // ---------------------------------------------------------------- the reducer

  predicate Matches(e: Entry, id: string, role: Role) {
    e.id == id && e.role == role
  }

  /** `findIndex`, with the length for "not found". */
  function Find(entries: seq<Entry>, id: string, role: Role): nat {
    if entries == [] || Matches(entries[0], id, role) then 0 else 1 + Find(entries[1..], id, role)
  }

  function Clip(e: Entry): Entry {
    e.(text := Prefix(e.text, MAX_TEXT))
  }

  function Removed(entries: seq<Entry>, i: nat): seq<Entry>
    requires i < |entries|
  {
    entries[..i] + entries[i + 1..]
  }

  /** A delta reaches only a running assistant entry. */
  function WithDelta(e: Entry, delta: string): Entry {
    e.(text := Prefix(e.text + delta, MAX_TEXT))
  }

  function WithOutcome(e: Entry, failed: bool): Entry {
    e.(status := if failed then Failed else Completed)
  }

  /** The entries after a delta, an end of text or an end of tool for entry `i`; not found leaves them alone. */
  function DeltaAt(entries: seq<Entry>, i: nat, delta: string): seq<Entry> {
    if i >= |entries| || entries[i].status != Running then entries else entries[i := WithDelta(entries[i], delta)]
  }

  function FinishAt(blank: string -> bool, entries: seq<Entry>, i: nat): seq<Entry> {
    if i >= |entries| then entries
    else if blank(entries[i].text) then Removed(entries, i)
    else entries[i := entries[i].(status := Completed)]
  }

  function OutcomeAt(entries: seq<Entry>, i: nat, failed: bool): seq<Entry> {
    if i >= |entries| then entries else entries[i := WithOutcome(entries[i], failed)]
  }

  /** `blank` says that `trim()` leaves nothing. */
  function Reduce(blank: string -> bool, t: Transcript, e: Event): Transcript {
    match e
    case Append(entry, generatedId) =>
      Transcript(Suffix(t.entries + [Clip(entry)], MAX_ENTRIES),
                 if generatedId then t.nextId + 1 else t.nextId, t.revision + 1)
    case Reset => t.(entries := [], revision := t.revision + 1)
    case Replace(entries) => t.(entries := Suffix(entries, MAX_ENTRIES), revision := t.revision + 1)
    case AssistantDelta(id, delta) =>
      var i := Find(t.entries, id, Assistant);
      if i >= |t.entries| || t.entries[i].status != Running then t
      else t.(entries := DeltaAt(t.entries, i, delta), revision := t.revision + 1)
    case AssistantFinished(id) =>
      var i := Find(t.entries, id, Assistant);
      if i >= |t.entries| then t else t.(entries := FinishAt(blank, t.entries, i), revision := t.revision + 1)
    case ToolFinished(id, failed) =>
      var i := Find(t.entries, id, Tool);
      if i >= |t.entries| then t else t.(entries := OutcomeAt(t.entries, i, failed), revision := t.revision + 1)
  }

  function ReduceAll(blank: string -> bool, t: Transcript, events: seq<Event>): Transcript
    decreases |events|
  {
    if events == [] then t else ReduceAll(blank, Reduce(blank, t, events[0]), events[1..])
  }

  // ---------------------------------------------------------------- the reference

  /**
   * Every entry with its whole text. `evicted` counts the oldest entries that a window of 200 has
   * lost; it moves only when more than 200 would remain after it.
   */
  datatype History = History(entries: seq<Entry>, evicted: nat)

  function Evict(entries: seq<Entry>, evicted: nat): nat {
    if |entries| > evicted + MAX_ENTRIES then |entries| - MAX_ENTRIES else evicted
  }

  function RecordDelta(h: History, j: nat, delta: string): History {
    if j >= |h.entries| || h.entries[j].status != Running then h
    else h.(entries := h.entries[j := h.entries[j].(text := h.entries[j].text + delta)])
  }

  function RecordFinish(blank: string -> bool, h: History, j: nat): History {
    if j >= |h.entries| then h
    else if blank(Clip(h.entries[j]).text) then
      History(Removed(h.entries, j), if j < h.evicted then h.evicted - 1 else h.evicted)
    else h.(entries := h.entries[j := h.entries[j].(status := Completed)])
  }

  function Record(blank: string -> bool, h: History, e: Event): History {
    match e
    case Append(entry, _) => History(h.entries + [entry], Evict(h.entries + [entry], h.evicted))
    case Reset => History([], 0)
    case Replace(entries) => History(entries, Evict(entries, 0))
    case AssistantDelta(id, delta) => RecordDelta(h, Find(h.entries, id, Assistant), delta)
    case AssistantFinished(id) => RecordFinish(blank, h, Find(h.entries, id, Assistant))
    case ToolFinished(id, failed) => h.(entries := OutcomeAt(h.entries, Find(h.entries, id, Tool), failed))
  }

  function RecordAll(blank: string -> bool, h: History, events: seq<Event>): History
    decreases |events|
  {
    if events == [] then h else RecordAll(blank, Record(blank, h, events[0]), events[1..])
  }

  /** The window shows exactly the entries after the evicted ones, each with its text clipped. */
  ghost predicate Shows(window: seq<Entry>, h: History) {
    && |window| + h.evicted == |h.entries| && |window| <= MAX_ENTRIES
    && forall i: nat | i < |window| :: window[i] == Clip(h.entries[h.evicted + i])
  }

  ghost predicate UniquePerRole(entries: seq<Entry>) {
    forall i: nat, j: nat | i < j < |entries| :: entries[i].id == entries[j].id ==> entries[i].role != entries[j].role
  }

  // ---------------------------------------------------------------- finding the same entry

  lemma {:induction false} Found(entries: seq<Entry>, id: string, role: Role)
    ensures
      var i := Find(entries, id, role);
      && i <= |entries| && (i < |entries| ==> Matches(entries[i], id, role))
      && forall k: nat | k < i :: !Matches(entries[k], id, role)
  {
    if entries != [] && !Matches(entries[0], id, role) {
      Found(entries[1..], id, role);
      var i := Find(entries[1..], id, role);
      forall k: nat | k < 1 + i ensures !Matches(entries[k], id, role) {
        if k > 0 {
          assert entries[k] == entries[1..][k - 1];
        }
      }
    }
  }

  predicate NoneMatches(entries: seq<Entry>, id: string, role: Role, n: nat) {
    forall k: nat | k < n && k < |entries| :: !Matches(entries[k], id, role)
  }

  lemma {:induction false} FirstMatch(entries: seq<Entry>, id: string, role: Role, i: nat)
    requires i <= |entries| && NoneMatches(entries, id, role, i)
    requires i < |entries| ==> Matches(entries[i], id, role)
    ensures Find(entries, id, role) == i
  {
    if i > 0 {
      assert !Matches(entries[0], id, role);
      assert NoneMatches(entries[1..], id, role, i - 1) by {
        forall k: nat | k < i - 1 && k < |entries[1..]| ensures !Matches(entries[1..][k], id, role) {
          assert entries[1..][k] == entries[k + 1];
        }
      }
      FirstMatch(entries[1..], id, role, i - 1);
    }
  }

  /** With unique IDs nothing but the found entry matches. */
  lemma OnlyMatch(entries: seq<Entry>, id: string, role: Role)
    requires UniquePerRole(entries)
    ensures
      var j := Find(entries, id, role);
      j <= |entries| && forall k: nat | k < |entries| && k != j :: !Matches(entries[k], id, role)
  {
    Found(entries, id, role);
    var j := Find(entries, id, role);
    forall k: nat | k < |entries| && k != j ensures !Matches(entries[k], id, role) {
      if k > j {
        assert entries[j].id == entries[k].id ==> entries[j].role != entries[k].role;
      }
    }
  }

  /** With unique IDs the window finds what the reference finds, unless that entry is evicted. */
  lemma FoundInWindow(window: seq<Entry>, h: History, id: string, role: Role)
    requires Shows(window, h) && UniquePerRole(h.entries)
    ensures Aligned(window, h, Find(window, id, role), Find(h.entries, id, role))
  {
    var j := Find(h.entries, id, role);
    var i := if h.evicted <= j < |h.entries| then j - h.evicted else |window|;
    OnlyMatch(h.entries, id, role);
    forall k: nat | k < i && k < |window| ensures !Matches(window[k], id, role) {
      assert window[k] == Clip(h.entries[h.evicted + k]);
    }
    if i < |window| {
      Found(h.entries, id, role);
      assert window[i] == Clip(h.entries[j]);
    }
    FirstMatch(window, id, role, i);
  }

  // ---------------------------------------------------------------- what an event does

  /** The first entry with this ID and role. */
  predicate IsFirstOf(entries: seq<Entry>, id: string, role: Role, i: nat) {
    i < |entries| && Matches(entries[i], id, role) && NoneMatches(entries, id, role, i)
  }

  /** The entry comes last, its text cut to 24000 characters; the oldest goes when there are more than 200. */
  lemma AppendMeans(blank: string -> bool, t: Transcript, entry: Entry, generatedId: bool)
    requires |t.entries| <= 200
    ensures
      var u := Reduce(blank, t, Append(entry, generatedId));
      var kept := if |t.entries| < 200 then t.entries else t.entries[1..];
      && |u.entries| == |kept| + 1 && u.entries[..|kept|] == kept
      && u.entries[|kept|] == entry.(text := if |entry.text| <= 24_000 then entry.text else entry.text[..24_000])
      && u.nextId == (if generatedId then t.nextId + 1 else t.nextId) && u.revision == t.revision + 1
  {
    var all := t.entries + [Clip(entry)];
    assert |t.entries| == 200 ==> all[1..] == t.entries[1..] + [Clip(entry)];
  }

  /** What is said to an ID reaches the first entry that has it in that role, and no other. */
  lemma UpdatesMean(blank: string -> bool, t: Transcript, id: string, role: Role, i: nat, delta: string, failed: bool)
    requires IsFirstOf(t.entries, id, role, i)
    ensures role == Assistant ==>
      var e, u, v := t.entries[i], Reduce(blank, t, AssistantDelta(id, delta)), Reduce(blank, t, AssistantFinished(id));
      var text := e.text + delta;
      && (e.status == Running ==>
            u.entries == t.entries[i := e.(text := if |text| <= 24_000 then text else text[..24_000])])
      && (e.status != Running ==> u == t)
      && (blank(e.text) ==> v.entries == t.entries[..i] + t.entries[i + 1..])
      && (!blank(e.text) ==> v.entries == t.entries[i := e.(status := Completed)])
    ensures role == Tool ==>
      Reduce(blank, t, ToolFinished(id, failed)).entries
        == t.entries[i := t.entries[i].(status := if failed then Failed else Completed)]
  {
    FirstMatch(t.entries, id, role, i);
  }

  lemma NothingToUpdate(blank: string -> bool, t: Transcript, id: string, delta: string, failed: bool)
    ensures NoneMatches(t.entries, id, Assistant, |t.entries|) ==>
      Reduce(blank, t, AssistantDelta(id, delta)) == t == Reduce(blank, t, AssistantFinished(id))
    ensures NoneMatches(t.entries, id, Tool, |t.entries|) ==> Reduce(blank, t, ToolFinished(id, failed)) == t
  {
    if NoneMatches(t.entries, id, Assistant, |t.entries|) {
      FirstMatch(t.entries, id, Assistant, |t.entries|);
    }
    if NoneMatches(t.entries, id, Tool, |t.entries|) {
      FirstMatch(t.entries, id, Tool, |t.entries|);
    }
  }

  // ---------------------------------------------------------------- every event keeps the window

  lemma UpdateShows(window: seq<Entry>, h: History, j: nat, e: Entry)
    requires Shows(window, h) && j < |h.entries|
    ensures Shows(if h.evicted <= j then window[j - h.evicted := Clip(e)] else window, h.(entries := h.entries[j := e]))
  {
  }

  lemma RemovalShows(window: seq<Entry>, h: History, j: nat)
    requires Shows(window, h) && j < |h.entries|
    ensures Shows(if h.evicted <= j then Removed(window, j - h.evicted) else window,
                  History(Removed(h.entries, j), if j < h.evicted then h.evicted - 1 else h.evicted))
  {
  }

  lemma SuffixShows(window: seq<Entry>, h: History, e: Entry)
    requires Shows(window, h)
    ensures Shows(Suffix(window + [Clip(e)], MAX_ENTRIES),
                  History(h.entries + [e], Evict(h.entries + [e], h.evicted)))
  {
    var all := window + [Clip(e)];
    assert forall i: nat | i < |all| :: all[i] == Clip((h.entries + [e])[h.evicted + i]);
  }

  /** Entries that are already short enough, as the projection of a persisted session produces them. */
  ghost predicate Short(entries: seq<Entry>) {
    forall i: nat | i < |entries| :: |entries[i].text| <= MAX_TEXT
  }

  /** Position `i` in the window is position `j` in the history, or nothing when that entry is evicted or missing. */
  predicate Aligned(window: seq<Entry>, h: History, i: nat, j: nat) {
    i == if h.evicted <= j < |h.entries| then j - h.evicted else |window|
  }

  lemma DeltaShows(window: seq<Entry>, h: History, i: nat, j: nat, delta: string)
    requires Shows(window, h) && Aligned(window, h, i, j)
    ensures Shows(DeltaAt(window, i, delta), RecordDelta(h, j, delta))
  {
    if j < |h.entries| {
      var e := h.entries[j];
      PrefixAfterPrefix(e.text, delta, MAX_TEXT);
      UpdateShows(window, h, j, e.(text := e.text + delta));
    }
  }

  lemma FinishShows(blank: string -> bool, window: seq<Entry>, h: History, i: nat, j: nat)
    requires Shows(window, h) && Aligned(window, h, i, j)
    ensures Shows(FinishAt(blank, window, i), RecordFinish(blank, h, j))
  {
    if j < |h.entries| {
      if blank(Clip(h.entries[j]).text) {
        RemovalShows(window, h, j);
      } else {
        UpdateShows(window, h, j, h.entries[j].(status := Completed));
      }
    }
  }

  lemma OutcomeShows(window: seq<Entry>, h: History, i: nat, j: nat, failed: bool)
    requires Shows(window, h) && Aligned(window, h, i, j)
    ensures Shows(OutcomeAt(window, i, failed), h.(entries := OutcomeAt(h.entries, j, failed)))
  {
    if j < |h.entries| {
      UpdateShows(window, h, j, WithOutcome(h.entries[j], failed));
    }
  }

  lemma EventShows(blank: string -> bool, t: Transcript, h: History, e: Event)
    requires Shows(t.entries, h) && UniquePerRole(h.entries) && (e.Replace? ==> Short(e.entries))
    ensures Shows(Reduce(blank, t, e).entries, Record(blank, h, e))
  {
    match e {
      case Append(entry, _) => SuffixShows(t.entries, h, entry);
      case Reset =>
      case Replace(entries) =>
      case AssistantDelta(id, delta) =>
        FoundInWindow(t.entries, h, id, Assistant);
        DeltaShows(t.entries, h, Find(t.entries, id, Assistant), Find(h.entries, id, Assistant), delta);
      case AssistantFinished(id) =>
        FoundInWindow(t.entries, h, id, Assistant);
        FinishShows(blank, t.entries, h, Find(t.entries, id, Assistant), Find(h.entries, id, Assistant));
      case ToolFinished(id, failed) =>
        FoundInWindow(t.entries, h, id, Tool);
        OutcomeShows(t.entries, h, Find(t.entries, id, Tool), Find(h.entries, id, Tool), failed);
    }
  }

  // ---------------------------------------------------------------- when IDs are unique

  /** User and assistant entries use the generated ID; a tool's ID is new among the tools. */
  ghost predicate Suits(t: Transcript, h: History, e: Event) {
    match e
    case Append(entry, _) =>
      if entry.role == Tool then
        forall i: nat | i < |h.entries| :: h.entries[i].role == Tool ==> h.entries[i].id != entry.id
      else entry.id == Decimal(t.nextId) && e.generatedId
    case Replace(entries) => Short(entries) && UniquePerRole(entries) && Unclaimed(entries, t.nextId)
    case _ => true
  }

  /** No user or assistant entry holds an ID that is still to be generated. */
  ghost predicate Unclaimed(entries: seq<Entry>, nextId: nat) {
    forall i: nat, n: nat | i < |entries| && n >= nextId :: entries[i].role == Tool || entries[i].id != Decimal(n)
  }

  ghost predicate AllSuit(blank: string -> bool, t: Transcript, h: History, events: seq<Event>)
    decreases |events|
  {
    events == []
    || (Suits(t, h, events[0]) && AllSuit(blank, Reduce(blank, t, events[0]), Record(blank, h, events[0]), events[1..]))
  }

  lemma UpdateStaysUnique(entries: seq<Entry>, i: nat, e: Entry, nextId: nat)
    requires UniquePerRole(entries) && Unclaimed(entries, nextId)
    requires i < |entries| && e.id == entries[i].id && e.role == entries[i].role
    ensures UniquePerRole(entries[i := e]) && Unclaimed(entries[i := e], nextId)
  {
  }

  lemma RemovalStaysUnique(entries: seq<Entry>, i: nat, nextId: nat)
    requires UniquePerRole(entries) && Unclaimed(entries, nextId) && i < |entries|
    ensures UniquePerRole(Removed(entries, i)) && Unclaimed(Removed(entries, i), nextId)
  {
    var rest := Removed(entries, i);
    assert forall k: nat | k < |rest| :: rest[k] == entries[if k < i then k else k + 1];
  }

  lemma SuitedStaysUnique(blank: string -> bool, t: Transcript, h: History, e: Event)
    requires UniquePerRole(h.entries) && Unclaimed(h.entries, t.nextId) && Suits(t, h, e)
    ensures UniquePerRole(Record(blank, h, e).entries)
    ensures Unclaimed(Record(blank, h, e).entries, Reduce(blank, t, e).nextId)
  {
    match e {
      case Append(entry, _) => AppendStaysUnique(t, h, entry, e.generatedId);
      case AssistantDelta(id, delta) =>
        var i := Find(h.entries, id, Assistant);
        if i < |h.entries| {
          UpdateStaysUnique(h.entries, i, h.entries[i].(text := h.entries[i].text + delta), t.nextId);
        }
      case AssistantFinished(id) =>
        var i := Find(h.entries, id, Assistant);
        if i < |h.entries| {
          UpdateStaysUnique(h.entries, i, h.entries[i].(status := Completed), t.nextId);
          RemovalStaysUnique(h.entries, i, t.nextId);
        }
      case ToolFinished(id, failed) =>
        var i := Find(h.entries, id, Tool);
        if i < |h.entries| {
          UpdateStaysUnique(h.entries, i, WithOutcome(h.entries[i], failed), t.nextId);
        }
      case _ =>
    }
  }

  lemma AppendStaysUnique(t: Transcript, h: History, entry: Entry, generatedId: bool)
    requires UniquePerRole(h.entries) && Unclaimed(h.entries, t.nextId) && Suits(t, h, Append(entry, generatedId))
    ensures UniquePerRole(h.entries + [entry])
    ensures Unclaimed(h.entries + [entry], if generatedId then t.nextId + 1 else t.nextId)
  {
    forall i: nat, n: nat | i < |h.entries + [entry]| && n >= (if generatedId then t.nextId + 1 else t.nextId)
      ensures (h.entries + [entry])[i].role == Tool || (h.entries + [entry])[i].id != Decimal(n)
    {
      if i == |h.entries| && entry.role != Tool && entry.id == Decimal(n) {
        DecimalInjective(t.nextId, n);
      }
    }
  }

  lemma {:induction false} RunShows(blank: string -> bool, t: Transcript, h: History, events: seq<Event>)
    requires Shows(t.entries, h) && UniquePerRole(h.entries) && Unclaimed(h.entries, t.nextId)
    requires AllSuit(blank, t, h, events)
    ensures Shows(ReduceAll(blank, t, events).entries, RecordAll(blank, h, events))
    decreases |events|
  {
    if events != [] {
      EventShows(blank, t, h, events[0]);
      SuitedStaysUnique(blank, t, h, events[0]);
      RunShows(blank, Reduce(blank, t, events[0]), Record(blank, h, events[0]), events[1..]);
    }
  }

  /** From the empty transcript on, the window is exactly the end of the whole history, texts clipped. */
  lemma EveryTranscript(blank: string -> bool, events: seq<Event>)
    requires AllSuit(blank, EMPTY, History([], 0), events)
    ensures Shows(ReduceAll(blank, EMPTY, events).entries, RecordAll(blank, History([], 0), events))
  {
    RunShows(blank, EMPTY, History([], 0), events);
  }

  /**
   * Without any demand on IDs: when a tool finishes, window and history part exactly when the first
   * holder of its ID is evicted while a later holder is in the window, not yet so finished.
   */
  lemma ToolFinishPartsIff(blank: string -> bool, t: Transcript, h: History, id: string, failed: bool)
    requires Shows(t.entries, h)
    ensures
      var e, i, j := ToolFinished(id, failed), Find(t.entries, id, Tool), Find(h.entries, id, Tool);
      Shows(Reduce(blank, t, e).entries, Record(blank, h, e))
      <==> !(j < h.evicted && i < |t.entries| && t.entries[i].status != (if failed then Failed else Completed))
  {
    var i, j := Find(t.entries, id, Tool), Find(h.entries, id, Tool);
    Found(h.entries, id, Tool);
    Found(t.entries, id, Tool);
    if j >= h.evicted {
      FirstInWindow(t.entries, h, id, Tool);
      OutcomeShows(t.entries, h, i, j, failed);
    } else {
      EvictedFinish(t.entries, h, i, j, failed);
    }
  }

  /** A first holder that is not evicted is the first in the window too. */
  lemma FirstInWindow(window: seq<Entry>, h: History, id: string, role: Role)
    requires Shows(window, h) && Find(h.entries, id, role) >= h.evicted
    ensures Aligned(window, h, Find(window, id, role), Find(h.entries, id, role))
  {
    Found(h.entries, id, role);
    var j := Find(h.entries, id, role);
    var i := if j < |h.entries| then j - h.evicted else |window|;
    forall k: nat | k < i && k < |window| ensures !Matches(window[k], id, role) {
      assert window[k] == Clip(h.entries[h.evicted + k]);
    }
    FirstMatch(window, id, role, i);
  }

  /** Finishing an evicted entry in the history and another one in the window. */
  lemma EvictedFinish(window: seq<Entry>, h: History, i: nat, j: nat, failed: bool)
    requires Shows(window, h) && j < h.evicted && j < |h.entries|
    ensures Shows(OutcomeAt(window, i, failed), h.(entries := OutcomeAt(h.entries, j, failed)))
      <==> !(i < |window| && window[i].status != (if failed then Failed else Completed))
  {
    var after := h.(entries := OutcomeAt(h.entries, j, failed));
    UpdateShows(window, h, j, WithOutcome(h.entries[j], failed));
    if i < |window| {
      assert window[i] == Clip(h.entries[h.evicted + i]);
      assert after.entries[h.evicted + i] == h.entries[h.evicted + i];
      if window[i].status == (if failed then Failed else Completed) {
        assert OutcomeAt(window, i, failed) == window;
      } else {
        assert OutcomeAt(window, i, failed)[i].status != Clip(after.entries[h.evicted + i]).status;
      }
    }
  }

  // ---------------------------------------------------------------- which entry is which

  /**
   * A transcript whose entries are numbered as they come in: `births[i]` is the number of entry i,
   * `clock` the next one. A number names one entry for good, whatever its ID and wherever it stands.
   */
  datatype Numbered = Numbered(t: Transcript, births: seq<nat>, clock: nat)

  /** A transcript as it stands, its entries numbered in order. */
  function FromNow(t: Transcript): Numbered {
    Numbered(t, Numbers(0, |t.entries|), |t.entries|)
  }

  function BirthsAfter(blank: string -> bool, s: Numbered, e: Event): seq<nat> {
    match e
    case Append(_, _) => Suffix(s.births + [s.clock], MAX_ENTRIES)
    case Reset => []
    case Replace(entries) => Numbers(s.clock, |Suffix(entries, MAX_ENTRIES)|)
    case AssistantFinished(id) =>
      var i := Find(s.t.entries, id, Assistant);
      if i < |s.t.entries| && i < |s.births| && blank(s.t.entries[i].text) then s.births[..i] + s.births[i + 1..]
      else s.births
    case _ => s.births
  }

  function NumberedStep(blank: string -> bool, s: Numbered, e: Event): Numbered {
    Numbered(Reduce(blank, s.t, e), BirthsAfter(blank, s, e),
             match e case Append(_, _) => s.clock + 1 case Replace(entries) => s.clock + |entries| case _ => s.clock)
  }

  function NumberedRun(blank: string -> bool, s: Numbered, events: seq<Event>): (r: Numbered)
    ensures r.t == ReduceAll(blank, s.t, events)
    decreases |events|
  {
    if events == [] then s else NumberedRun(blank, NumberedStep(blank, s, events[0]), events[1..])
  }

  /** Every entry has a number of its own, and they stand in the order in which they came. */
  ghost predicate InBirthOrder(s: Numbered) {
    && |s.births| == |s.t.entries| <= MAX_ENTRIES
    && (forall i: nat | i < |s.births| :: s.births[i] < s.clock)
    && (forall i: nat, j: nat | i < j < |s.births| :: s.births[i] < s.births[j])
  }

  /** Entry number `n` is there, with this ID and role. */
  ghost predicate Holds(s: Numbered, n: nat, id: string, role: Role) {
    exists k: nat :: k < |s.births| && k < |s.t.entries| && s.births[k] == n && Matches(s.t.entries[k], id, role)
  }

  /** What is in `u` and is not newer than `s` was in `s` already, under the ID and role it has now. */
  ghost predicate ComesFrom(s: Numbered, u: Numbered) {
    && s.clock <= u.clock
    && forall i: nat | i < |u.births| && i < |u.t.entries| && u.births[i] < s.clock ::
         Holds(s, u.births[i], u.t.entries[i].id, u.t.entries[i].role)
  }

  /** The entries of `u` are entries of `s` at increasing places, or newer. */
  lemma StepComesFrom(blank: string -> bool, s: Numbered, e: Event)
    requires InBirthOrder(s)
    ensures InBirthOrder(NumberedStep(blank, s, e)) && ComesFrom(s, NumberedStep(blank, s, e))
  {
    match e {
      case Append(_, _) => AppendComesFrom(blank, s, e);
      case AssistantFinished(id) => FinishComesFrom(blank, s, id);
      case AssistantDelta(id, _) => Found(s.t.entries, id, Assistant); SamePlacesComeFrom(s, NumberedStep(blank, s, e));
      case ToolFinished(id, _) => SamePlacesComeFrom(s, NumberedStep(blank, s, e));
      case _ =>
    }
  }

  lemma SamePlacesComeFrom(s: Numbered, u: Numbered)
    requires InBirthOrder(s) && u.births == s.births && u.clock == s.clock && |u.t.entries| == |s.t.entries|
    requires forall i: nat | i < |s.births| ::
      u.t.entries[i].id == s.t.entries[i].id && u.t.entries[i].role == s.t.entries[i].role
    ensures InBirthOrder(u) && ComesFrom(s, u)
  {
  }

  /** `u` is `s` with `entry` appended and the first `cut` entries dropped. */
  predicate Appended(s: Numbered, u: Numbered, entry: Entry, cut: nat) {
    && cut <= |s.births| == |s.t.entries| && (cut == 0 || |s.births| - cut == MAX_ENTRIES - 1)
    && u.births == s.births[cut..] + [s.clock] && u.t.entries == s.t.entries[cut..] + [entry]
    && u.clock == s.clock + 1
  }

  /** A full window loses its first element for a new one. */
  lemma SuffixOfSnoc<T>(a: seq<T>, x: T, n: nat)
    requires |a| <= n && n > 0
    ensures Suffix(a + [x], n) == a[if |a| < n then 0 else 1..] + [x]
  {
  }

  lemma AppendPlaces(blank: string -> bool, s: Numbered, e: Event)
    requires InBirthOrder(s) && e.Append?
    ensures Appended(s, NumberedStep(blank, s, e), Clip(e.entry), if |s.births| < MAX_ENTRIES then 0 else 1)
  {
    SuffixOfSnoc(s.births, s.clock, MAX_ENTRIES);
    SuffixOfSnoc(s.t.entries, Clip(e.entry), MAX_ENTRIES);
  }

  lemma AppendedComesFrom(s: Numbered, u: Numbered, entry: Entry, cut: nat)
    requires InBirthOrder(s) && Appended(s, u, entry, cut) && |u.births| <= MAX_ENTRIES
    ensures InBirthOrder(u) && ComesFrom(s, u)
  {
    forall i: nat | i < |u.births| && u.births[i] < s.clock
      ensures Holds(s, u.births[i], u.t.entries[i].id, u.t.entries[i].role)
    {
      assert u.births[i] == s.births[i + cut] && u.t.entries[i] == s.t.entries[i + cut];
    }
  }

  lemma AppendComesFrom(blank: string -> bool, s: Numbered, e: Event)
    requires InBirthOrder(s) && e.Append?
    ensures InBirthOrder(NumberedStep(blank, s, e)) && ComesFrom(s, NumberedStep(blank, s, e))
  {
    AppendPlaces(blank, s, e);
    AppendedComesFrom(s, NumberedStep(blank, s, e), Clip(e.entry), if |s.births| < MAX_ENTRIES then 0 else 1);
  }

  /** `u` is `s` without entry `i`: what stands at `k` in `u` stood one place higher from `i` on. */
  ghost predicate Dropped(s: Numbered, u: Numbered, i: nat) {
    && i < |s.births| == |s.t.entries| && |u.births| == |u.t.entries| == |s.births| - 1 && u.clock == s.clock
    && (forall k: nat | k < |u.births| :: u.births[k] == s.births[if k < i then k else k + 1])
    && (forall k: nat | k < |u.t.entries| :: u.t.entries[k] == s.t.entries[if k < i then k else k + 1])
  }

  lemma DroppedComesFrom(s: Numbered, u: Numbered, i: nat)
    requires InBirthOrder(s) && Dropped(s, u, i)
    ensures InBirthOrder(u) && ComesFrom(s, u)
  {
    forall k: nat | k < |u.births| ensures Holds(s, u.births[k], u.t.entries[k].id, u.t.entries[k].role) {
      var from := if k < i then k else k + 1;
      assert u.births[k] == s.births[from] && u.t.entries[k] == s.t.entries[from];
    }
  }

  /** The end of a text removes its entry or leaves all of them in their places. */
  lemma FinishPlaces(blank: string -> bool, s: Numbered, id: string)
    requires InBirthOrder(s)
    ensures
      var u, i := NumberedStep(blank, s, AssistantFinished(id)), Find(s.t.entries, id, Assistant);
      && u.clock == s.clock
      && (i < |s.births| && blank(s.t.entries[i].text) ==> Dropped(s, u, i))
      && (!(i < |s.births| && blank(s.t.entries[i].text)) ==>
            && u.births == s.births && |u.t.entries| == |s.t.entries|
            && forall k: nat | k < |s.t.entries| ::
                 u.t.entries[k] == if k == i then s.t.entries[k].(status := Completed) else s.t.entries[k])
  {
  }

  lemma FinishComesFrom(blank: string -> bool, s: Numbered, id: string)
    requires InBirthOrder(s)
    ensures
      var u := NumberedStep(blank, s, AssistantFinished(id));
      InBirthOrder(u) && ComesFrom(s, u)
  {
    var u, i := NumberedStep(blank, s, AssistantFinished(id)), Find(s.t.entries, id, Assistant);
    FinishPlaces(blank, s, id);
    if i < |s.births| && blank(s.t.entries[i].text) {
      DroppedComesFrom(s, u, i);
    } else {
      SamePlacesComeFrom(s, u);
    }
  }

  lemma ComesFromTwice(a: Numbered, s: Numbered, u: Numbered)
    requires ComesFrom(a, s) && ComesFrom(s, u)
    ensures ComesFrom(a, u)
  {
    forall i: nat | i < |u.births| && i < |u.t.entries| && u.births[i] < a.clock
      ensures Holds(a, u.births[i], u.t.entries[i].id, u.t.entries[i].role)
    {
      assert Holds(s, u.births[i], u.t.entries[i].id, u.t.entries[i].role);
    }
  }

  lemma {:induction false} RunComesFrom(blank: string -> bool, s: Numbered, events: seq<Event>)
    requires InBirthOrder(s)
    ensures InBirthOrder(NumberedRun(blank, s, events)) && ComesFrom(s, NumberedRun(blank, s, events))
    decreases |events|
  {
    if events == [] {
      SamePlacesComeFrom(s, s);
    } else {
      var next := NumberedStep(blank, s, events[0]);
      StepComesFrom(blank, s, events[0]);
      RunComesFrom(blank, next, events[1..]);
      ComesFromTwice(s, next, NumberedRun(blank, next, events[1..]));
    }
  }

  // ---------------------------------------------------------------- a tool from start to end

  /** The ID a tool entry is given. */
  function ToolId(t: Transcript, toolCallId: string): string {
    if toolCallId == "" then Decimal(t.nextId) else Prefix(toolCallId, 128)
  }

  function StartOf(t: Transcript, toolCallId: string, toolName: string, now: int): Event {
    Append(Entry(ToolId(t, toolCallId), now, Tool, SafeToolName(toolName), Running), toolCallId == "")
  }

  function EndOf(toolCallId: string, failed: bool): Event {
    ToolFinished(Prefix(toolCallId, 128), failed)
  }

  function ToolStarted(blank: string -> bool, t: Transcript, toolCallId: string, toolName: string,
                       now: int): Transcript {
    Reduce(blank, t, StartOf(t, toolCallId, toolName, now))
  }

  function ToolEnded(blank: string -> bool, t: Transcript, toolCallId: string, failed: bool): Transcript {
    Reduce(blank, t, EndOf(toolCallId, failed))
  }

  /** The tool ends entry `j`, and nothing else changes. */
  predicate EndsOnly(before: seq<Entry>, after: seq<Entry>, j: nat, failed: bool) {
    j < |before| && after == before[j := WithOutcome(before[j], failed)]
  }

  /** The first tool entry with this ID. */
  predicate IsFirst(entries: seq<Entry>, id: string, j: nat) {
    IsFirstOf(entries, id, Tool, j)
  }

  /** The end of a tool ends the first holder of its cut ID alone; a running entry that is not it stays running. */
  lemma FirstHolderEnds(blank: string -> bool, u: Transcript, toolCallId: string, failed: bool, j: nat)
    requires j < |u.entries| && u.entries[j].status == Running
    ensures EndsOnly(u.entries, ToolEnded(blank, u, toolCallId, failed).entries, j, failed)
      <==> IsFirst(u.entries, Prefix(toolCallId, 128), j)
  {
    var id := Prefix(toolCallId, 128);
    var i := Find(u.entries, id, Tool);
    Found(u.entries, id, Tool);
    if IsFirst(u.entries, id, j) {
      FirstMatch(u.entries, id, Tool, j);
    } else {
      assert i != j;
      assert ToolEnded(blank, u, toolCallId, failed).entries[j] == u.entries[j];
    }
  }

  /** A tool entry that held the ID before number `b` was given out is still in the window. */
  ghost predicate StillHeld(a: Numbered, u: Numbered, id: string, b: nat) {
    exists n: nat :: n < b && Holds(a, n, id, Tool) && n in u.births
  }

  /** Among the entries of `u`, the own one is the first holder of its ID unless an earlier holder is left. */
  lemma OwnIsFirstUnlessHeld(s: Numbered, u: Numbered, id: string, b: nat, j: nat)
    requires InBirthOrder(s) && InBirthOrder(u) && ComesFrom(s, u)
    requires b < s.clock && Holds(s, b, id, Tool) && j < |u.births| && u.births[j] == b
    ensures Matches(u.t.entries[j], id, Tool)
    ensures IsFirst(u.t.entries, id, j) <==> !StillHeld(s, u, id, b)
  {
    assert Holds(s, b, u.t.entries[j].id, u.t.entries[j].role);
    if StillHeld(s, u, id, b) {
      var n: nat :| n < b && Holds(s, n, id, Tool) && n in u.births;
      var i: nat :| i < |u.births| && u.births[i] == n;
      assert Holds(s, n, u.t.entries[i].id, u.t.entries[i].role);
      assert i < j;
    }
    if i: nat :| i < j && Matches(u.t.entries[i], id, Tool) {
      assert u.births[i] < b && Holds(s, u.births[i], id, Tool);
      assert u.births[i] in u.births;
    }
  }

  /** The tool that was started is in the window under its number, running. */
  ghost predicate OwnRuns(u: Numbered, b: nat, j: nat) {
    j < |u.births| && j < |u.t.entries| && u.births[j] == b && u.t.entries[j].status == Running
  }

  /** Entry `j` is another one than number `b`, and it alone is ended. */
  ghost predicate EndsAnother(u: Numbered, after: seq<Entry>, b: nat, failed: bool) {
    exists j: nat :: j < |u.births| && u.births[j] != b && EndsOnly(u.t.entries, after, j, failed)
  }

  /**
   * In `u` a tool ends that was started in `s` as number `b`. If its entry is there and running, the
   * end settles exactly it if and only if the call ID is not empty and no earlier holder is left.
   */
  ghost predicate SettlesOwnIff(blank: string -> bool, s: Numbered, u: Numbered, toolCallId: string, failed: bool,
                                b: nat) {
    forall j: nat | OwnRuns(u, b, j) ::
      EndsOnly(u.t.entries, ToolEnded(blank, u.t, toolCallId, failed).entries, j, failed)
      <==> toolCallId != "" && !StillHeld(s, u, Prefix(toolCallId, 128), b)
  }

  /** If its entry is gone, the end changes nothing exactly when no tool holds the ID, and else settles another. */
  ghost predicate MissesWithoutOwn(blank: string -> bool, u: Numbered, toolCallId: string, failed: bool, b: nat) {
    var id, after := Prefix(toolCallId, 128), ToolEnded(blank, u.t, toolCallId, failed);
    b !in u.births ==>
      && (after == u.t <==> NoneMatches(u.t.entries, id, Tool, |u.t.entries|))
      && (after != u.t ==> EndsAnother(u, after.entries, b, failed))
  }

  lemma EndSettlesOwn(blank: string -> bool, s: Numbered, u: Numbered, own: string, toolCallId: string, failed: bool,
                      b: nat)
    requires InBirthOrder(s) && InBirthOrder(u) && ComesFrom(s, u)
    requires b < s.clock && Holds(s, b, own, Tool) && own != "" && (toolCallId != "" ==> own == Prefix(toolCallId, 128))
    ensures SettlesOwnIff(blank, s, u, toolCallId, failed, b)
  {
    forall j: nat | OwnRuns(u, b, j)
      ensures EndsOnly(u.t.entries, ToolEnded(blank, u.t, toolCallId, failed).entries, j, failed)
        <==> toolCallId != "" && !StillHeld(s, u, Prefix(toolCallId, 128), b)
    {
      FirstHolderEnds(blank, u.t, toolCallId, failed, j);
      OwnIsFirstUnlessHeld(s, u, own, b, j);
    }
  }

  /** A tool that is started in `t`, the entries numbered from then on. */
  function StartedFromNow(blank: string -> bool, t: Transcript, toolCallId: string, toolName: string,
                          now: int): Numbered {
    NumberedStep(blank, FromNow(t), StartOf(t, toolCallId, toolName, now))
  }

  /**
   * A tool is started in any transcript, and after any events its end comes: appends and removals
   * move its entry, a reset, a replacement or 200 later entries drop it, other tools start and end.
   */
  lemma ToolEndsItsOwnIff(blank: string -> bool, t: Transcript, toolCallId: string, toolName: string, now: int,
                          between: seq<Event>, failed: bool)
    requires |t.entries| <= MAX_ENTRIES
    ensures
      var b, s := |t.entries|, StartedFromNow(blank, t, toolCallId, toolName, now);
      var u := NumberedRun(blank, s, between);
      && s.t == ToolStarted(blank, t, toolCallId, toolName, now) && u.t == ReduceAll(blank, s.t, between)
      && SettlesOwnIff(blank, s, u, toolCallId, failed, b)
      && MissesWithoutOwn(blank, u, toolCallId, failed, b)
  {
    var b, s := |t.entries|, StartedFromNow(blank, t, toolCallId, toolName, now);
    var u := NumberedRun(blank, s, between);
    StartHolds(blank, t, toolCallId, toolName, now);
    RunComesFrom(blank, s, between);
    EndSettlesOwn(blank, s, u, ToolId(t, toolCallId), toolCallId, failed, b);
    EndWithoutOwn(blank, u, toolCallId, failed, b);
  }

  lemma StartHolds(blank: string -> bool, t: Transcript, toolCallId: string, toolName: string, now: int)
    requires |t.entries| <= MAX_ENTRIES
    ensures
      var s := StartedFromNow(blank, t, toolCallId, toolName, now);
      && InBirthOrder(s) && |t.entries| < s.clock && s.births != [] && OwnRuns(s, |t.entries|, |s.births| - 1)
      && Holds(s, |t.entries|, ToolId(t, toolCallId), Tool) && ToolId(t, toolCallId) != ""
  {
    var e := StartOf(t, toolCallId, toolName, now);
    AppendComesFrom(blank, FromNow(t), e);
    AppendPlaces(blank, FromNow(t), e);
    LastHolds(StartedFromNow(blank, t, toolCallId, toolName, now), |t.entries|, Clip(e.entry));
  }

  lemma LastHolds(s: Numbered, b: nat, e: Entry)
    requires |s.births| == |s.t.entries| && s.births != [] && s.births[|s.births| - 1] == b
    requires s.t.entries[|s.births| - 1] == e && e.status == Running
    ensures OwnRuns(s, b, |s.births| - 1) && Holds(s, b, e.id, e.role)
  {
    assert Matches(s.t.entries[|s.births| - 1], e.id, e.role);
  }

  lemma EndWithoutOwn(blank: string -> bool, u: Numbered, toolCallId: string, failed: bool, b: nat)
    requires InBirthOrder(u)
    ensures MissesWithoutOwn(blank, u, toolCallId, failed, b)
  {
    var id := Prefix(toolCallId, 128);
    var i := Find(u.t.entries, id, Tool);
    Found(u.t.entries, id, Tool);
    if i < |u.t.entries| && b !in u.births {
      assert u.births[i] in u.births;
      assert EndsOnly(u.t.entries, ToolEnded(blank, u.t, toolCallId, failed).entries, i, failed);
    }
  }

  // ---------------------------------------------------------------- what a caller can see to

  /** An event that neither clears the transcript nor ends a tool under this ID. */
  predicate LeavesTool(e: Event, id: string) {
    match e
    case Reset => false
    case Replace(_) => false
    case ToolFinished(other, _) => other != id
    case _ => true
  }

  function Appends(events: seq<Event>): nat {
    if events == [] then 0 else (if events[0].Append? then 1 else 0) + Appends(events[1..])
  }

  /** Number `b` runs at place `j`, with at most `n` entries after it. */
  ghost predicate RunsAt(u: Numbered, b: nat, id: string, n: nat, j: nat) {
    InBirthOrder(u) && OwnRuns(u, b, j) && Matches(u.t.entries[j], id, Tool) && |u.births| - 1 - j <= n
  }

  lemma AppendLeavesTool(blank: string -> bool, u: Numbered, e: Event, b: nat, id: string, n: nat, j: nat)
      returns (m: nat)
    requires RunsAt(u, b, id, n, j) && e.Append? && n + 1 < MAX_ENTRIES
    ensures RunsAt(NumberedStep(blank, u, e), b, id, n + 1, m)
  {
    AppendComesFrom(blank, u, e);
    AppendPlaces(blank, u, e);
    m := if |u.births| < MAX_ENTRIES then j else j - 1;
    AppendedKeepsPlace(u, NumberedStep(blank, u, e), Clip(e.entry), b, j, j - m);
  }

  lemma AppendedKeepsPlace(s: Numbered, u: Numbered, entry: Entry, b: nat, j: nat, cut: nat)
    requires Appended(s, u, entry, cut) && OwnRuns(s, b, j) && cut <= j
    ensures |u.births| == |s.births| + 1 - cut && OwnRuns(u, b, j - cut) && u.t.entries[j - cut] == s.t.entries[j]
  {
  }

  lemma FinishLeavesTool(blank: string -> bool, u: Numbered, other: string, b: nat, id: string, n: nat, j: nat)
      returns (m: nat)
    requires RunsAt(u, b, id, n, j)
    ensures RunsAt(NumberedStep(blank, u, AssistantFinished(other)), b, id, n, m)
  {
    FinishComesFrom(blank, u, other);
    FinishPlaces(blank, u, other);
    Found(u.t.entries, other, Assistant);
    var i := Find(u.t.entries, other, Assistant);
    m := if i < j && blank(u.t.entries[i].text) then j - 1 else j;
  }

  lemma EventLeavesTool(blank: string -> bool, u: Numbered, e: Event, b: nat, id: string, n: nat, j: nat)
      returns (m: nat)
    requires RunsAt(u, b, id, n, j) && LeavesTool(e, id) && (e.Append? ==> n + 1 < MAX_ENTRIES)
    ensures RunsAt(NumberedStep(blank, u, e), b, id, if e.Append? then n + 1 else n, m)
  {
    m := j;
    match e {
      case Append(_, _) => m := AppendLeavesTool(blank, u, e, b, id, n, j);
      case AssistantFinished(other) => m := FinishLeavesTool(blank, u, other, b, id, n, j);
      case AssistantDelta(other, _) =>
        StepComesFrom(blank, u, e);
        Found(u.t.entries, other, Assistant);
      case ToolFinished(other, _) =>
        StepComesFrom(blank, u, e);
        Found(u.t.entries, other, Tool);
    }
  }

  lemma {:induction false} EventsLeaveTool(blank: string -> bool, u: Numbered, events: seq<Event>, b: nat, id: string,
                                           n: nat, j: nat) returns (m: nat)
    requires RunsAt(u, b, id, n, j) && n + Appends(events) < MAX_ENTRIES
    requires forall k | 0 <= k < |events| :: LeavesTool(events[k], id)
    ensures RunsAt(NumberedRun(blank, u, events), b, id, n + Appends(events), m)
    decreases |events|
  {
    if events == [] {
      return j;
    }
    m := EventLeavesTool(blank, u, events[0], b, id, n, j);
    m := EventsLeaveTool(blank, NumberedStep(blank, u, events[0]), events[1..], b, id,
                         if events[0].Append? then n + 1 else n, m);
  }

  /**
   * What a caller can see to beforehand: start under an ID that no tool entry holds, then add fewer
   * than 200 entries, clear nothing and end no other tool under that ID, and the own entry is still
   * there, running and first; its end settles it alone exactly when the call ID is not empty.
   */
  lemma ToolEndsItsOwnEntry(blank: string -> bool, t: Transcript, toolCallId: string, toolName: string, now: int,
                            between: seq<Event>, failed: bool) returns (j: nat)
    requires |t.entries| <= MAX_ENTRIES && NoneMatches(t.entries, ToolId(t, toolCallId), Tool, |t.entries|)
    requires Appends(between) < MAX_ENTRIES
    requires forall k | 0 <= k < |between| :: LeavesTool(between[k], ToolId(t, toolCallId))
    ensures
      var u := ReduceAll(blank, ToolStarted(blank, t, toolCallId, toolName, now), between);
      var v := ToolEnded(blank, u, toolCallId, failed);
      && IsFirst(u.entries, ToolId(t, toolCallId), j) && u.entries[j].status == Running
      && (EndsOnly(u.entries, v.entries, j, failed) <==> toolCallId != "")
      && (toolCallId == "" ==> j < |v.entries| && v.entries[j] == u.entries[j])
  {
    var b, id := |t.entries|, ToolId(t, toolCallId);
    var s := StartedFromNow(blank, t, toolCallId, toolName, now);
    StartHolds(blank, t, toolCallId, toolName, now);
    RunComesFrom(blank, s, between);
    j := StartedStays(blank, s, between, b, id);
    var u := NumberedRun(blank, s, between);
    NoneHeldBefore(blank, t, toolCallId, toolName, now);
    OwnIsFirstUnlessHeld(s, u, id, b, j);
    FirstHolderEnds(blank, u.t, toolCallId, failed, j);
    EndLeavesRunning(blank, u.t, id, toolCallId, failed, j);
  }

  lemma StartedStays(blank: string -> bool, s: Numbered, between: seq<Event>, b: nat, id: string) returns (j: nat)
    requires InBirthOrder(s) && s.births != [] && OwnRuns(s, b, |s.births| - 1) && Holds(s, b, id, Tool)
    requires Appends(between) < MAX_ENTRIES && forall k | 0 <= k < |between| :: LeavesTool(between[k], id)
    ensures OwnRuns(NumberedRun(blank, s, between), b, j)
  {
    j := EventsLeaveTool(blank, s, between, b, id, 0, |s.births| - 1);
  }

  /** An end under another ID leaves the entry as it is. */
  lemma EndLeavesRunning(blank: string -> bool, u: Transcript, id: string, toolCallId: string, failed: bool, j: nat)
    requires j < |u.entries| && Matches(u.entries[j], id, Tool)
    ensures
      var v := ToolEnded(blank, u, toolCallId, failed);
      Prefix(toolCallId, 128) != id ==> j < |v.entries| && v.entries[j] == u.entries[j]
  {
    Found(u.entries, Prefix(toolCallId, 128), Tool);
  }

  lemma NoneHeldBefore(blank: string -> bool, t: Transcript, toolCallId: string, toolName: string, now: int)
    requires |t.entries| <= MAX_ENTRIES && NoneMatches(t.entries, ToolId(t, toolCallId), Tool, |t.entries|)
    ensures
      var s := StartedFromNow(blank, t, toolCallId, toolName, now);
      forall n: nat | n < |t.entries| :: !Holds(s, n, ToolId(t, toolCallId), Tool)
  {
    var e := StartOf(t, toolCallId, toolName, now);
    AppendComesFrom(blank, FromNow(t), e);
    NoneHeldInFrom(FromNow(t), StartedFromNow(blank, t, toolCallId, toolName, now), ToolId(t, toolCallId));
  }

  lemma NoneHeldInFrom(s: Numbered, u: Numbered, id: string)
    requires InBirthOrder(s) && ComesFrom(s, u) && NoneMatches(s.t.entries, id, Tool, |s.t.entries|)
    ensures forall n: nat | n < s.clock :: !Holds(u, n, id, Tool)
  {
    forall n: nat | n < s.clock ensures !Holds(u, n, id, Tool) {
      if Holds(u, n, id, Tool) {
        HeldBefore(s, u, n, id);
      }
    }
  }

  lemma HeldBefore(s: Numbered, u: Numbered, n: nat, id: string)
    requires ComesFrom(s, u) && n < s.clock && Holds(u, n, id, Tool)
    ensures Holds(s, n, id, Tool)
  {
  }

  /**
   * Two running tools whose call IDs are the same, or the same up to 128 characters: the second's end
   * settles the first.
   */
  lemma SecondEndSettlesTheFirst(blank: string -> bool, first: string, second: string, toolName: string, now: int)
    requires first != "" && second != "" && Prefix(first, 128) == Prefix(second, 128)
    ensures
      var one := ToolStarted(blank, EMPTY, first, toolName, now);
      var two := ToolStarted(blank, one, second, toolName, now);
      var e := Clip(Entry(Prefix(first, 128), now, Tool, SafeToolName(toolName), Running));
      && two.entries == [e, e]
      && ToolEnded(blank, two, second, false).entries == [e.(status := Completed), e]
  {
    var e := Clip(Entry(Prefix(first, 128), now, Tool, SafeToolName(toolName), Running));
    FirstMatch([e, e], Prefix(first, 128), Tool, 0);
  }

  // ---------------------------------------------------------------- revisions

  /** In one run, a revision number names one state. */
  lemma {:induction false} RevisionsNameEntries(blank: string -> bool, t: Transcript, events: seq<Event>)
    ensures ReduceAll(blank, t, events).revision >= t.revision
    ensures ReduceAll(blank, t, events).revision == t.revision ==> ReduceAll(blank, t, events) == t
    decreases |events|
  {
    if events != [] {
      RevisionsNameEntries(blank, Reduce(blank, t, events[0]), events[1..]);
    }
  }

  // ---------------------------------------------------------------- streaming

  function Deltas(id: string, deltas: seq<string>): seq<Event> {
    if deltas == [] then [] else [AssistantDelta(id, deltas[0])] + Deltas(id, deltas[1..])
  }

  ghost predicate Streams(t: Transcript, id: string, i: nat) {
    && i == Find(t.entries, id, Assistant) && i < |t.entries|
    && t.entries[i].status == Running && |t.entries[i].text| <= MAX_TEXT
  }

  lemma DeltaStep(blank: string -> bool, t: Transcript, id: string, i: nat, delta: string)
    requires Streams(t, id, i)
    ensures
      var next := Reduce(blank, t, AssistantDelta(id, delta));
      next.entries == t.entries[i := WithDelta(t.entries[i], delta)] && Streams(next, id, i)
  {
    assert Matches(t.entries[i], id, Assistant) by { Found(t.entries, id, Assistant); }
    FindIsStable(t.entries, i, WithDelta(t.entries[i], delta), id, Assistant);
  }

  /** However a text is cut into deltas, the entry ends up with its first 24000 characters. */
  lemma {:induction false} DeltasAccumulate(blank: string -> bool, t: Transcript, id: string, i: nat,
                                            deltas: seq<string>)
    requires Streams(t, id, i)
    ensures
      var after := ReduceAll(blank, t, Deltas(id, deltas));
      after.entries == t.entries[i := t.entries[i].(text := Prefix(t.entries[i].text + Flatten(deltas), MAX_TEXT))]
    decreases |deltas|
  {
    var text := t.entries[i].text;
    if deltas == [] {
      assert text + [] == text;
    } else {
      var next := Reduce(blank, t, AssistantDelta(id, deltas[0]));
      DeltaStep(blank, t, id, i, deltas[0]);
      DeltasAccumulate(blank, next, id, i, deltas[1..]);
      assert Deltas(id, deltas)[1..] == Deltas(id, deltas[1..]);
      PrefixAfterPrefix(text + deltas[0], Flatten(deltas[1..]), MAX_TEXT);
      assert text + deltas[0] + Flatten(deltas[1..]) == text + Flatten(deltas);
    }
  }

  lemma {:induction false} FindIsStable(entries: seq<Entry>, i: nat, e: Entry, id: string, role: Role)
    requires i < |entries| && i == Find(entries, id, role) && Matches(e, id, role)
    ensures Find(entries[i := e], id, role) == i
  {
    if i > 0 {
      FindIsStable(entries[1..], i - 1, e, id, role);
      assert entries[i := e][1..] == entries[1..][i - 1 := e];
    }
  }

  // ---------------------------------------------------------------- the transcript object

  predicate IsToolChar(c: char) {
    'a' <= c <= 'z' || 'A' <= c <= 'Z' || '0' <= c <= '9' || c == '_' || c == '.' || c == ':' || c == '-'
  }

  function ToolChars(s: string): (r: string)
    ensures forall i | 0 <= i < |r| :: IsToolChar(r[i])
  {
    if s == "" then "" else (if IsToolChar(s[0]) then [s[0]] else "") + ToolChars(s[1..])
  }

  function SafeToolName(s: string): (r: string)
    ensures 0 < |r| <= 80
    ensures forall i | 0 <= i < |r| :: IsToolChar(r[i])
  {
    var name := Prefix(ToolChars(s), 80);
    if name == "" then "tool" else name
  }

  const LOWER: string := "abcdefghijklmnopqrstuvwxyz"
  const UPPER: string := "ABCDEFGHIJKLMNOPQRSTUVWXYZ"
  const DIGITS: string := "0123456789"

  lemma LowerMeans(c: char)
    ensures c in LOWER <==> 'a' <= c <= 'z'
  {
    if 'a' <= c <= 'z' { assert LOWER[c as int - 'a' as int] == c; }
  }

  lemma UpperMeans(c: char)
    ensures c in UPPER <==> 'A' <= c <= 'Z'
  {
    if 'A' <= c <= 'Z' { assert UPPER[c as int - 'A' as int] == c; }
  }

  lemma DigitMeans(c: char)
    ensures c in DIGITS <==> '0' <= c <= '9'
  {
    if '0' <= c <= '9' { assert DIGITS[c as int - '0' as int] == c; }
  }

  predicate IsSafe(c: char) {
    c in LOWER || c in UPPER || c in DIGITS || c in {'_', '.', ':', '-'}
  }

  lemma ToolCharMeans(c: char)
    ensures IsToolChar(c) <==> IsSafe(c)
  {
    LowerMeans(c);
    UpperMeans(c);
    DigitMeans(c);
  }

  /** Character by character, the safe ones are kept and the others dropped. */
  lemma {:induction false} ToolCharsFilter(a: string, c: char)
    ensures ToolChars(a + [c]) == ToolChars(a) + if IsSafe(c) then [c] else []
  {
    ToolCharMeans(c);
    if a == "" {
      assert [c][1..] == "";
    } else {
      assert (a + [c])[1..] == a[1..] + [c];
      ToolCharsFilter(a[1..], c);
    }
  }

  /** A name that is already safe stays as it is. */
  lemma {:induction false} SafeNamesStay(s: string)
    requires forall i | 0 <= i < |s| :: IsToolChar(s[i])
    ensures ToolChars(s) == s
    ensures 0 < |s| <= 80 ==> SafeToolName(s) == s
  {
    if s != "" {
      SafeNamesStay(s[1..]);
      assert s == [s[0]] + s[1..];
    }
  }

  class PublicTranscript {
    var state: Transcript
    const blank: string -> bool

    constructor (blank: string -> bool)
      ensures state == EMPTY && this.blank == blank
    {
      this.blank := blank;
      state := EMPTY;
    }

    /** A requested ID is cut to 128 characters; an empty or missing one is generated. */
    method Append(role: Role, text: string, status: Status, requestedId: string, now: int) returns (id: string)
      modifies this
      ensures id == if requestedId == "" then Decimal(old(state).nextId) else Prefix(requestedId, 128)
      ensures state == Reduce(blank, old(state), Event.Append(Entry(id, now, role, text, status), requestedId == ""))
    {
      var requested := Prefix(requestedId, 128);
      id := if requested == "" then Decimal(state.nextId) else requested;
      state := Reduce(blank, state, Event.Append(Entry(id, now, role, text, status), requested == ""));
    }

    method AddUser(text: string, now: int)
      modifies this
      ensures
        var e := Event.Append(Entry(Decimal(old(state).nextId), now, User, text, NoStatus), true);
        state == Reduce(blank, old(state), e) && forall h: History :: Suits(old(state), h, e)
    {
      var _ := Append(User, text, NoStatus, "", now);
    }

    method BeginAssistant(now: int) returns (id: string)
      modifies this
      ensures
        var e := Event.Append(Entry(id, now, Assistant, "", Running), true);
        state == Reduce(blank, old(state), e) && forall h: History :: Suits(old(state), h, e)
    {
      id := Append(Assistant, "", Running, "", now);
    }

    method AppendAssistantText(id: string, delta: string)
      modifies this
      ensures state == Reduce(blank, old(state), AssistantDelta(id, delta))
      ensures |state.entries| == |old(state).entries| && state.nextId == old(state).nextId
      ensures forall i: nat | i < |state.entries| && i != Find(old(state).entries, id, Assistant) ::
        state.entries[i] == old(state).entries[i]
    {
      state := Reduce(blank, state, AssistantDelta(id, delta));
    }

    method FinishAssistant(id: string)
      modifies this
      ensures state == Reduce(blank, old(state), AssistantFinished(id))
      ensures
        var i := Find(old(state).entries, id, Assistant);
        |state.entries|
          == |old(state).entries| - (if i < |old(state).entries| && blank(old(state).entries[i].text) then 1 else 0)
    {
      state := Reduce(blank, state, AssistantFinished(id));
    }

    method StartTool(toolCallId: string, toolName: string, now: int)
      modifies this
      ensures
        var id := if toolCallId == "" then Decimal(old(state).nextId) else Prefix(toolCallId, 128);
        && state == ToolStarted(blank, old(state), toolCallId, toolName, now)
        && state.entries != [] && Matches(state.entries[|state.entries| - 1], id, Tool)
        && state.entries[|state.entries| - 1].status == Running
        && state.entries[|state.entries| - 1].text == SafeToolName(toolName)
        && state.nextId == old(state).nextId + if toolCallId == "" then 1 else 0
    {
      var _ := Append(Tool, SafeToolName(toolName), Running, toolCallId, now);
    }

    /** The first tool entry with the cut ID ends, if there is one, and nothing else changes. */
    method FinishTool(toolCallId: string, failed: bool)
      modifies this
      ensures state == ToolEnded(blank, old(state), toolCallId, failed)
      ensures forall j: nat | IsFirst(old(state).entries, Prefix(toolCallId, 128), j) ::
        EndsOnly(old(state).entries, state.entries, j, failed)
      ensures NoneMatches(old(state).entries, Prefix(toolCallId, 128), Tool, |old(state).entries|)
        <==> state == old(state)
    {
      var id := Prefix(toolCallId, 128);
      Found(state.entries, id, Tool);
      state := Reduce(blank, state, ToolFinished(id, failed));
    }

    method Reset()
      modifies this
      ensures state == Reduce(blank, old(state), Event.Reset)
      ensures state.entries == [] && state.nextId == old(state).nextId && state.revision > old(state).revision
    {
      state := Reduce(blank, state, Event.Reset);
    }

    method Replace(entries: seq<Entry>)
      modifies this
      ensures state == Reduce(blank, old(state), Event.Replace(entries))
      ensures |state.entries| <= MAX_ENTRIES && state.entries == entries[|entries| - |state.entries|..]
      ensures state.nextId == old(state).nextId && state.revision > old(state).revision
    {
      state := Reduce(blank, state, Event.Replace(entries));
    }
  }
}

/**
 * Newline framing of the guest's MCP byte stream: chunks of any size are collected in a buffer and
 * complete lines are taken off its front.
 */
module McpFraming {
  import opened Collections

  newtype Byte = x: int | 0 <= x < 256

  type Bytes = seq<Byte>

  const NEWLINE: Byte := 0x0a
  const MAX_MESSAGE: nat := 16 * 1024 * 1024

  /** A trimmed, parsed and validated line; message values are opaque here. */
  datatype Decoded = Blank | Message(value: string) | Malformed

  datatype Event = Emitted(value: string) | Error

  /** `consumed` is what has left the front of the buffer. */
  datatype Reader = Reader(buffer: Bytes, events: seq<Event>, consumed: Bytes)

  /** The index of the first newline, or the length. */
  function Newline(s: Bytes): nat {
    if s == [] || s[0] == NEWLINE then 0 else 1 + Newline(s[1..])
  }

  lemma {:induction false} NewlineFound(s: Bytes)
    ensures Newline(s) <= |s|
    ensures Newline(s) < |s| ==> s[Newline(s)] == NEWLINE
  {
    if s != [] && s[0] != NEWLINE {
      NewlineFound(s[1..]);
    }
  }

  // ---------------------------------------------------------------- reading

  /** One complete line leaves the buffer, with its message or its error. */
  function Taken(decode: Bytes -> Decoded, r: Reader): Reader
    requires Newline(r.buffer) < |r.buffer|
  {
    var i := Newline(r.buffer);
    var line := decode(r.buffer[..i]);
    Reader(r.buffer[i + 1..], Heard(r.events, line), r.consumed + r.buffer[..i + 1])
  }

  function Heard(events: seq<Event>, line: Decoded): seq<Event> {
    match line
    case Blank => events
    case Message(value) => events + [Emitted(value)]
    case Malformed => events + [Error]
  }

  /** The loop of `read` over what is buffered; a throw ends it and emits the error. */
  function Drain(decode: Bytes -> Decoded, r: Reader): Reader
    decreases |r.buffer|
  {
    NewlineFound(r.buffer);
    var i := Newline(r.buffer);
    if i > MAX_MESSAGE then r.(events := r.events + [Error])
    else if i == |r.buffer| then r
    else if decode(r.buffer[..i]).Malformed? then Taken(decode, r)
    else Drain(decode, Taken(decode, r))
  }

  function ReadChunk(decode: Bytes -> Decoded, r: Reader, chunk: Bytes): Reader {
    Drain(decode, r.(buffer := r.buffer + chunk))
  }

  function ReadAll(decode: Bytes -> Decoded, r: Reader, chunks: seq<Bytes>): Reader
    decreases |chunks|
  {
    if chunks == [] then r else ReadAll(decode, ReadChunk(decode, r, chunks[0]), chunks[1..])
  }

  const START: Reader := Reader([], [], [])

  // ---------------------------------------------------------------- what a stream says

  /** The bytes after the last newline. */
  function Tail(s: Bytes): Bytes
    decreases |s|
  {
    NewlineFound(s);
    if Newline(s) == |s| then s else Tail(s[Newline(s) + 1..])
  }

  /** The messages of the complete lines, in order. */
  function Messages(decode: Bytes -> Decoded, s: Bytes): seq<string>
    decreases |s|
  {
    NewlineFound(s);
    var i := Newline(s);
    if i == |s| then []
    else Then(decode(s[..i]), Messages(decode, s[i + 1..]))
  }

  /** Every line parses and fits, and so far the unfinished one fits. */
  predicate WellFormed(decode: Bytes -> Decoded, s: Bytes)
    decreases |s|
  {
    NewlineFound(s);
    var i := Newline(s);
    i <= MAX_MESSAGE && (i < |s| ==> decode(s[..i]) != Malformed && WellFormed(decode, s[i + 1..]))
  }

  /** Complete lines only. */
  predicate Whole(s: Bytes) {
    s == [] || s[|s| - 1] == NEWLINE
  }

  function Values(events: seq<Event>): seq<string> {
    if events == [] then []
    else if events[0].Emitted? then [events[0].value] + Values(events[1..])
    else Values(events[1..])
  }

  lemma {:induction false} ValuesSnoc(events: seq<Event>, e: Event)
    ensures Values(events + [e]) == if e.Emitted? then Values(events) + [e.value] else Values(events)
  {
    if events == [] {
      assert [e][1..] == [];
    } else {
      assert (events + [e])[1..] == events[1..] + [e];
      ValuesSnoc(events[1..], e);
    }
  }

  // ---------------------------------------------------------------- appending to a stream

  lemma {:induction false} NewlineAppend(a: Bytes, b: Bytes)
    ensures Newline(a) < |a| ==> Newline(a + b) == Newline(a)
    ensures Newline(a) == |a| ==> Newline(a + b) == |a| + Newline(b)
  {
    NewlineFound(a);
    if a == [] {
      assert a + b == b;
    } else {
      assert (a + b)[1..] == a[1..] + b;
      if a[0] != NEWLINE {
        NewlineFound(a[1..]);
        NewlineAppend(a[1..], b);
      }
    }
  }

  /** The first line of `a` is the first line of `a + b`. */
  lemma FirstLineAppend(a: Bytes, b: Bytes)
    requires Newline(a) < |a|
    ensures
      var i := Newline(a);
      Newline(a + b) == i && (a + b)[..i] == a[..i] && (a + b)[i + 1..] == a[i + 1..] + b
  {
    NewlineAppend(a, b);
  }

  lemma {:induction false} WholeHasNewline(s: Bytes)
    requires Whole(s) && s != []
    ensures Newline(s) < |s|
  {
    if s[0] != NEWLINE {
      assert s[1..][|s| - 2] == s[|s| - 1];
      WholeHasNewline(s[1..]);
    }
  }

  /** Taking the first line off complete lines leaves complete lines. */
  lemma WholeStep(a: Bytes, b: Bytes)
    requires Whole(a) && a != []
    ensures Newline(a) < |a| && Whole(a[Newline(a) + 1..])
    ensures Newline(a + b) == Newline(a) && (a + b)[..Newline(a)] == a[..Newline(a)]
    ensures (a + b)[Newline(a) + 1..] == a[Newline(a) + 1..] + b
  {
    WholeHasNewline(a);
    FirstLineAppend(a, b);
    var rest := a[Newline(a) + 1..];
    assert rest != [] ==> rest[|rest| - 1] == a[|a| - 1];
  }

  /** The messages of a line and what follows it. */
  function Then(line: Decoded, rest: seq<string>): seq<string> {
    if line.Message? then [line.value] + rest else rest
  }

  lemma ThenAppend(line: Decoded, a: seq<string>, b: seq<string>)
    ensures Then(line, a + b) == Then(line, a) + b
  {
  }

  lemma {:induction false} MessagesAppend(decode: Bytes -> Decoded, a: Bytes, b: Bytes)
    requires Whole(a)
    ensures Messages(decode, a + b) == Messages(decode, a) + Messages(decode, b)
    decreases |a|
  {
    if a == [] {
      assert a + b == b;
    } else {
      WholeStep(a, b);
      var line, rest := decode(a[..Newline(a)]), a[Newline(a) + 1..];
      MessagesAppend(decode, rest, b);
      assert Messages(decode, a) == Then(line, Messages(decode, rest));
      assert Messages(decode, a + b) == Then(line, Messages(decode, rest + b));
      ThenAppend(line, Messages(decode, rest), Messages(decode, b));
    }
  }

  lemma {:induction false} TailAppend(a: Bytes, b: Bytes)
    requires Whole(a)
    ensures Tail(a + b) == Tail(b)
    decreases |a|
  {
    if a == [] {
      assert a + b == b;
    } else {
      WholeStep(a, b);
      TailAppend(a[Newline(a) + 1..], b);
    }
  }

  /** Complete, well-formed lines can be forgotten. */
  lemma {:induction false} WellFormedAppend(decode: Bytes -> Decoded, a: Bytes, b: Bytes)
    requires Whole(a) && WellFormed(decode, a)
    ensures WellFormed(decode, a + b) <==> WellFormed(decode, b)
    decreases |a|
  {
    if a == [] {
      assert a + b == b;
    } else {
      WholeStep(a, b);
      WellFormedAppend(decode, a[Newline(a) + 1..], b);
    }
  }

  /** What is well formed so far was well formed before. */
  lemma {:induction false} WellFormedPrefix(decode: Bytes -> Decoded, a: Bytes, b: Bytes)
    requires WellFormed(decode, a + b)
    ensures WellFormed(decode, a)
    decreases |a|
  {
    NewlineFound(a);
    NewlineAppend(a, b);
    var i := Newline(a);
    if i < |a| {
      FirstLineAppend(a, b);
      WellFormedPrefix(decode, a[i + 1..], b);
    }
  }

  // ---------------------------------------------------------------- draining

  /** What has been read so far, well formed or not. */
  ghost predicate Faithful(decode: Bytes -> Decoded, r: Reader) {
    Whole(r.consumed) && Values(r.events) == Messages(decode, r.consumed)
  }

  lemma FirstLine(s: Bytes)
    requires Newline(s) < |s|
    ensures
      var i := Newline(s);
      var line := s[..i + 1];
      line[i] == NEWLINE && Newline(line) == i && line[..i] == s[..i] && line[i + 1..] == []
  {
    var i := Newline(s);
    NewlineFound(s);
    NewlineFound(s[..i + 1]);
    NewlineAppend(s[..i + 1], s[i + 1..]);
    assert s[..i + 1] + s[i + 1..] == s;
  }

  lemma SingleLine(decode: Bytes -> Decoded, line: Bytes)
    requires line != [] && Newline(line) == |line| - 1
    ensures Messages(decode, line) == Then(decode(line[..|line| - 1]), [])
  {
    assert line[|line|..] == [];
    assert Messages(decode, []) == [];
  }

  /** The line at the front of a stream adds its own message to what was consumed before. */
  lemma LineTaken(decode: Bytes -> Decoded, consumed: Bytes, s: Bytes)
    requires Whole(consumed) && Newline(s) < |s|
    ensures
      var i := Newline(s);
      && Whole(consumed + s[..i + 1])
      && Messages(decode, consumed + s[..i + 1]) == Messages(decode, consumed) + Then(decode(s[..i]), [])
  {
    var line := s[..Newline(s) + 1];
    FirstLine(s);
    SingleLine(decode, line);
    MessagesAppend(decode, consumed, line);
    LastOfJoin(consumed, line);
  }

  lemma LastOfJoin(a: Bytes, b: Bytes)
    requires b != []
    ensures (a + b)[|a + b| - 1] == b[|b| - 1]
  {
  }

  lemma HeardValues(events: seq<Event>, line: Decoded)
    ensures Values(Heard(events, line)) == Values(events) + Then(line, [])
  {
    match line {
      case Blank => assert Values(events) + [] == Values(events);
      case Message(value) =>
        ValuesSnoc(events, Emitted(value));
        assert [value] + [] == [value];
      case Malformed =>
        ValuesSnoc(events, Error);
        assert Values(events) + [] == Values(events);
    }
  }

  lemma TakenIsFaithful(decode: Bytes -> Decoded, r: Reader)
    requires Faithful(decode, r) && Newline(r.buffer) < |r.buffer|
    ensures Faithful(decode, Taken(decode, r))
    ensures Taken(decode, r).consumed + Taken(decode, r).buffer == r.consumed + r.buffer
  {
    LineTaken(decode, r.consumed, r.buffer);
    HeardValues(r.events, decode(r.buffer[..Newline(r.buffer)]));
    Cut(r.consumed, r.buffer, Newline(r.buffer) + 1);
  }

  lemma Cut(a: Bytes, s: Bytes, n: nat)
    requires n <= |s|
    ensures a + s[..n] + s[n..] == a + s
  {
  }

  lemma {:induction false} DrainIsFaithful(decode: Bytes -> Decoded, r: Reader)
    requires Faithful(decode, r)
    ensures Faithful(decode, Drain(decode, r))
    ensures Drain(decode, r).consumed + Drain(decode, r).buffer == r.consumed + r.buffer
    decreases |r.buffer|
  {
    NewlineFound(r.buffer);
    var i := Newline(r.buffer);
    ValuesSnoc(r.events, Error);
    if i < |r.buffer| && i <= MAX_MESSAGE {
      TakenIsFaithful(decode, r);
      if !decode(r.buffer[..i]).Malformed? {
        DrainIsFaithful(decode, Taken(decode, r));
      }
    }
  }

  predicate Quiet(r: Reader) {
    Error !in r.events
  }

  lemma {:induction false} DrainKeepsErrors(decode: Bytes -> Decoded, r: Reader)
    ensures !Quiet(r) ==> !Quiet(Drain(decode, r))
    decreases |r.buffer|
  {
    NewlineFound(r.buffer);
    var i := Newline(r.buffer);
    if i < |r.buffer| && i <= MAX_MESSAGE && !decode(r.buffer[..i]).Malformed? {
      DrainKeepsErrors(decode, Taken(decode, r));
    }
  }

  /** Draining is silent exactly on well-formed bytes, and then leaves the unfinished line. */
  lemma {:induction false} DrainIsQuiet(decode: Bytes -> Decoded, r: Reader)
    requires Quiet(r)
    ensures Quiet(Drain(decode, r)) <==> WellFormed(decode, r.buffer)
    ensures WellFormed(decode, r.buffer) ==> Drain(decode, r).buffer == Tail(r.buffer)
    decreases |r.buffer|
  {
    NewlineFound(r.buffer);
    var i := Newline(r.buffer);
    assert Error in r.events + [Error];
    if i < |r.buffer| && i <= MAX_MESSAGE && !decode(r.buffer[..i]).Malformed? {
      DrainIsQuiet(decode, Taken(decode, r));
    }
  }

  // ---------------------------------------------------------------- every split of every stream

  lemma Regroup(a: Bytes, b: Bytes, c: Bytes, d: Bytes)
    ensures a + (b + c) + d == a + b + (c + d)
  {
  }

  lemma {:induction false} ReadAllIsFaithful(decode: Bytes -> Decoded, r: Reader, chunks: seq<Bytes>)
    requires Faithful(decode, r)
    ensures Faithful(decode, ReadAll(decode, r, chunks))
    ensures ReadAll(decode, r, chunks).consumed + ReadAll(decode, r, chunks).buffer
         == r.consumed + r.buffer + Flatten(chunks)
    decreases |chunks|
  {
    if chunks != [] {
      DrainIsFaithful(decode, r.(buffer := r.buffer + chunks[0]));
      var next := ReadChunk(decode, r, chunks[0]);
      ReadAllIsFaithful(decode, next, chunks[1..]);
      Regroup(r.consumed, r.buffer, chunks[0], Flatten(chunks[1..]));
    }
  }

  /**
   * For any stream, malformed lines included, and any split: no byte is lost or repeated, and the
   * messages emitted are those of the lines taken off, in order.
   */
  lemma EveryStream(decode: Bytes -> Decoded, chunks: seq<Bytes>)
    ensures
      var r := ReadAll(decode, START, chunks);
      && r.consumed + r.buffer == Flatten(chunks)
      && Whole(r.consumed)
      && Values(r.events) == Messages(decode, r.consumed)
  {
    ReadAllIsFaithful(decode, START, chunks);
  }

  /** After `a` come messages, and last of all perhaps an error. */
  predicate AddsThenError(a: seq<Event>, b: seq<Event>) {
    a <= b && forall k | |a| <= k < |b| - 1 :: b[k].Emitted?
  }

  predicate EndsInError(a: seq<Event>, b: seq<Event>) {
    |b| > |a| && b[|b| - 1] == Error
  }

  /**
   * Draining emits messages and at most one error, after them; without an error it has taken every
   * complete line, and what is left fits.
   */
  lemma {:induction false} DrainAdds(decode: Bytes -> Decoded, r: Reader)
    ensures
      var t := Drain(decode, r);
      && AddsThenError(r.events, t.events)
      && (!EndsInError(r.events, t.events) ==> Newline(t.buffer) == |t.buffer| <= MAX_MESSAGE)
    decreases |r.buffer|
  {
    NewlineFound(r.buffer);
    var i := Newline(r.buffer);
    if i <= MAX_MESSAGE && i < |r.buffer| && !decode(r.buffer[..i]).Malformed? {
      DrainAdds(decode, Taken(decode, r));
    }
  }

  /** The same for a chunk, whatever was buffered. */
  lemma ReadAdds(decode: Bytes -> Decoded, r: Reader, chunk: Bytes)
    ensures
      var t := ReadChunk(decode, r, chunk);
      && AddsThenError(r.events, t.events)
      && (!EndsInError(r.events, t.events) ==> Newline(t.buffer) == |t.buffer| <= MAX_MESSAGE)
  {
    DrainAdds(decode, r.(buffer := r.buffer + chunk));
  }

  lemma {:induction false} ReadAllKeepsErrors(decode: Bytes -> Decoded, r: Reader, chunks: seq<Bytes>)
    requires !Quiet(r)
    ensures !Quiet(ReadAll(decode, r, chunks))
    decreases |chunks|
  {
    if chunks != [] {
      DrainKeepsErrors(decode, r.(buffer := r.buffer + chunks[0]));
      ReadAllKeepsErrors(decode, ReadChunk(decode, r, chunks[0]), chunks[1..]);
    }
  }

  lemma Reassemble(s: Bytes, n: nat, a: Bytes, b: Bytes)
    requires n <= |s| && s[n..] == a + b
    ensures s == (s[..n] + a) + b
  {
  }

  /** A line and complete lines are complete lines. */
  lemma WholeJoin(s: Bytes, n: nat, rest: Bytes)
    requires 0 < n <= |s| && s[n - 1] == NEWLINE && Whole(rest)
    ensures Whole(s[..n] + rest)
  {
    assert rest != [] ==> (s[..n] + rest)[n + |rest| - 1] == rest[|rest| - 1];
  }

  lemma {:induction false} LinesThenTail(s: Bytes) returns (lines: Bytes)
    ensures s == lines + Tail(s) && Whole(lines)
    ensures Newline(Tail(s)) == |Tail(s)|
    decreases |s|
  {
    NewlineFound(s);
    var n := Newline(s) + 1;
    if n > |s| {
      lines := [];
      assert s == lines + s;
    } else {
      var rest := LinesThenTail(s[n..]);
      Reassemble(s, n, rest, Tail(s[n..]));
      WholeJoin(s, n, rest);
      lines := s[..n] + rest;
    }
  }

  /** Once `s` is read, only its unfinished line matters for what follows. */
  lemma TailDecides(decode: Bytes -> Decoded, s: Bytes, rest: Bytes)
    requires WellFormed(decode, s)
    ensures WellFormed(decode, Tail(s)) && Newline(Tail(s)) == |Tail(s)|
    ensures WellFormed(decode, s + rest) <==> WellFormed(decode, Tail(s) + rest)
    ensures Tail(s + rest) == Tail(Tail(s) + rest)
  {
    var lines := LinesThenTail(s);
    LinesForgotten(decode, lines, Tail(s), rest);
  }

  lemma LinesForgotten(decode: Bytes -> Decoded, lines: Bytes, unfinished: Bytes, rest: Bytes)
    requires Whole(lines) && WellFormed(decode, lines + unfinished)
    ensures WellFormed(decode, unfinished)
    ensures WellFormed(decode, lines + unfinished + rest) <==> WellFormed(decode, unfinished + rest)
    ensures Tail(lines + unfinished + rest) == Tail(unfinished + rest)
  {
    WellFormedPrefix(decode, lines, unfinished);
    WellFormedAppend(decode, lines, unfinished);
    Reassociate(lines, unfinished, rest);
    WellFormedAppend(decode, lines, unfinished + rest);
    TailAppend(lines, unfinished + rest);
  }

  lemma {:induction false} ReadAllIsQuiet(decode: Bytes -> Decoded, r: Reader, chunks: seq<Bytes>)
    requires Quiet(r) && WellFormed(decode, r.buffer) && Newline(r.buffer) == |r.buffer|
    ensures Quiet(ReadAll(decode, r, chunks)) <==> WellFormed(decode, r.buffer + Flatten(chunks))
    ensures Quiet(ReadAll(decode, r, chunks)) ==>
      ReadAll(decode, r, chunks).buffer == Tail(r.buffer + Flatten(chunks))
    decreases |chunks|
  {
    if chunks == [] {
      assert r.buffer + [] == r.buffer;
    } else {
      var s, rest := r.buffer + chunks[0], Flatten(chunks[1..]);
      var next := ReadChunk(decode, r, chunks[0]);
      Reassociate(r.buffer, chunks[0], rest);
      ChunkIsQuiet(decode, r, chunks[0]);
      if WellFormed(decode, s) {
        TailDecides(decode, s, rest);
        ReadAllIsQuiet(decode, next, chunks[1..]);
      } else {
        ReadAllKeepsErrors(decode, next, chunks[1..]);
        NotWellFormedStays(decode, s, rest);
      }
    }
  }

  lemma Reassociate(a: Bytes, b: Bytes, c: Bytes)
    ensures a + (b + c) == a + b + c
  {
  }

  lemma ChunkIsQuiet(decode: Bytes -> Decoded, r: Reader, chunk: Bytes)
    requires Quiet(r)
    ensures
      var next, s := ReadChunk(decode, r, chunk), r.buffer + chunk;
      (Quiet(next) <==> WellFormed(decode, s)) && (WellFormed(decode, s) ==> next.buffer == Tail(s))
  {
    DrainIsQuiet(decode, r.(buffer := r.buffer + chunk));
  }

  lemma NotWellFormedStays(decode: Bytes -> Decoded, a: Bytes, b: Bytes)
    requires !WellFormed(decode, a)
    ensures !WellFormed(decode, a + b)
  {
    if WellFormed(decode, a + b) {
      WellFormedPrefix(decode, a, b);
    }
  }

  /**
   * No error is emitted exactly when every line parses and fits. Then, however the stream was
   * split, all its messages have been emitted and the buffer is what follows the last newline.
   */
  lemma QuietIffWellFormed(decode: Bytes -> Decoded, chunks: seq<Bytes>)
    ensures
      var r, s := ReadAll(decode, START, chunks), Flatten(chunks);
      && (Quiet(r) <==> WellFormed(decode, s))
      && (Quiet(r) ==> r.buffer == Tail(s) && Values(r.events) == Messages(decode, s))
  {
    var r, s := ReadAll(decode, START, chunks), Flatten(chunks);
    assert WellFormed(decode, []);
    assert [] + s == s;
    ReadAllIsQuiet(decode, START, chunks);
    EveryStream(decode, chunks);
    if Quiet(r) {
      MessagesAppend(decode, r.consumed, r.buffer);
      var _ := LinesThenTail(s);
    }
  }

  /** A line that has outgrown the limit blocks the stream for good: every later read only repeats the error. */
  lemma OversizeBlocks(decode: Bytes -> Decoded, r: Reader, chunk: Bytes)
    requires Newline(r.buffer) > MAX_MESSAGE
    ensures Newline(ReadChunk(decode, r, chunk).buffer) > MAX_MESSAGE
    ensures ReadChunk(decode, r, chunk) == Reader(r.buffer + chunk, r.events + [Error], r.consumed)
  {
    NewlineFound(r.buffer);
    NewlineFound(chunk);
    NewlineAppend(r.buffer, chunk);
  }

  // ---------------------------------------------------------------- the transport

  class GondolinMcpTransport {
    var buffer: Bytes
    var events: seq<Event>
    ghost var consumed: Bytes
    const decode: Bytes -> Decoded

    ghost function State(): Reader
      reads this
    {
      Reader(buffer, events, consumed)
    }

    constructor (decode: Bytes -> Decoded)
      ensures State() == START && Faithful(decode, State()) && this.decode == decode
    {
      this.decode := decode;
      buffer, events, consumed := [], [], [];
    }

    method Read(chunk: Bytes)
      requires Faithful(decode, State())
      modifies this
      ensures State() == ReadChunk(decode, old(State()), chunk) && Faithful(decode, State())
      ensures consumed + buffer == old(consumed) + old(buffer) + chunk
    {
      buffer := buffer + chunk;
      ghost var start := State();
      DrainIsFaithful(decode, start);
      Reassociate(old(consumed), old(buffer), chunk);
      NewlineFound(buffer);
      var newline := Newline(buffer);
      while newline < |buffer|
        invariant newline == Newline(buffer) <= |buffer|
        invariant Drain(decode, State()) == Drain(decode, start)
        decreases |buffer|
      {
        if newline > MAX_MESSAGE {
          events := events + [Error];
          return;
        }
        ghost var before := State();
        var line := decode(buffer[..newline]);
        consumed := consumed + buffer[..newline + 1];
        buffer := buffer[newline + 1..];
        match line {
          case Blank =>
          case Message(value) => events := events + [Emitted(value)];
          case Malformed => events := events + [Error];
        }
        assert State() == Taken(decode, before);
        if line.Malformed? {
          return;
        }
        NewlineFound(buffer);
        newline := Newline(buffer);
      }
      if |buffer| > MAX_MESSAGE {
        events := events + [Error];
      }
    }
  }
}

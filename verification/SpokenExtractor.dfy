/**
 * The streaming extractor of the JSON `spoken` string. Text is a sequence of code points, because
 * a decoded escape may be a lone surrogate.
 */
module SpokenExtractors {
  import opened Collections

  type CodePoint = c: int | 0 <= c < 0x110000
  type Text = seq<CodePoint>

  const QUOTE: CodePoint := 0x22
  const BACKSLASH: CodePoint := 0x5C
  const COLON: CodePoint := 0x3A
  const LETTER_U: CodePoint := 0x75
  const REPLACEMENT: CodePoint := 0xFFFD
  const KEPT_PREFIX: nat := 64

  /** `"spoken"` with its quotes. */
  const KEY: Text := [0x22, 0x73, 0x70, 0x6F, 0x6B, 0x65, 0x6E, 0x22]

  /** White space as `\s` matches it in a Python text pattern. */
  predicate IsSpace(c: CodePoint) {
    || 0x09 <= c <= 0x0D || 0x1C <= c <= 0x20 || c == 0x85 || c == 0xA0 || c == 0x1680
    || 0x2000 <= c <= 0x200A || c == 0x2028 || c == 0x2029 || c == 0x202F || c == 0x205F || c == 0x3000
  }

  // ---------------------------------------------------------------- the marker

  function SkipSpaces(t: Text, i: nat): (j: nat)
    requires i <= |t|
    ensures i <= j <= |t|
    ensures forall k :: i <= k < j ==> IsSpace(t[k])
    ensures j < |t| ==> !IsSpace(t[j])
    decreases |t| - i
  {
    if i < |t| && IsSpace(t[i]) then SkipSpaces(t, i + 1) else i
  }

  predicate KeyAt(t: Text, i: nat) {
    && i + |KEY| <= |t|
    && t[i] == KEY[0] && t[i + 1] == KEY[1] && t[i + 2] == KEY[2] && t[i + 3] == KEY[3]
    && t[i + 4] == KEY[4] && t[i + 5] == KEY[5] && t[i + 6] == KEY[6] && t[i + 7] == KEY[7]
  }

  /** The end of a match of `"spoken"\s*:\s*"` that starts at i. */
  function MatchAt(t: Text, i: nat): (end: Option<nat>)
    requires i <= |t|
    ensures end.Some? ==> i + 10 <= end.value <= |t|
  {
    if !KeyAt(t, i) then None
    else
      var colon := SkipSpaces(t, i + |KEY|);
      if colon == |t| || t[colon] != COLON then None
      else
        var open := SkipSpaces(t, colon + 1);
        if open == |t| || t[open] != QUOTE then None else Some(open + 1)
  }

  /** The leftmost match at or after i, as `re.search` finds it. */
  function Search(t: Text, i: nat): (found: Option<(nat, nat)>)
    requires i <= |t|
    ensures found.Some? ==> i <= found.value.0 <= |t| && MatchAt(t, found.value.0) == Some(found.value.1)
    decreases |t| - i
  {
    if MatchAt(t, i).Some? then Some((i, MatchAt(t, i).value))
    else if i == |t| then None
    else Search(t, i + 1)
  }

  /** White space from `from` up to `to`. */
  predicate AllSpaces(t: Text, from: nat, to: nat) {
    to <= |t| && forall k | from <= k < to :: IsSpace(t[k])
  }

  /** The key at i, white space, a colon, white space, and the quote before `end`. */
  predicate IsMarker(t: Text, i: nat, end: nat, colon: nat) {
    && i + 8 <= colon < end - 1 < |t|
    && t[i..i + 8] == [0x22, 0x73, 0x70, 0x6F, 0x6B, 0x65, 0x6E, 0x22]
    && AllSpaces(t, i + 8, colon) && t[colon] == 0x3A && AllSpaces(t, colon + 1, end - 1) && t[end - 1] == 0x22
  }

  lemma KeyAtMeans(t: Text, i: nat)
    ensures KeyAt(t, i) <==> i + 8 <= |t| && t[i..i + 8] == [0x22, 0x73, 0x70, 0x6F, 0x6B, 0x65, 0x6E, 0x22]
  {
    if i + 8 <= |t| {
      var key := t[i..i + 8];
      assert forall k | 0 <= k < 8 :: key[k] == t[i + k];
    }
  }

  /** A match is what the pattern says: at a given place there is one end at most, and it is found. */
  lemma MatchMeans(t: Text, i: nat, end: nat)
    requires i <= |t|
    ensures MatchAt(t, i) == Some(end) <==> exists colon: nat :: IsMarker(t, i, end, colon)
  {
    KeyAtMeans(t, i);
    if MatchAt(t, i) == Some(end) {
      assert IsMarker(t, i, end, SkipSpaces(t, i + 8));
    }
    if colon: nat :| IsMarker(t, i, end, colon) {
      assert SkipSpaces(t, i + 8) == colon;
      assert SkipSpaces(t, colon + 1) == end - 1;
    }
  }

  /** `str.isspace`, character by character. */
  lemma SpacesAre(c: CodePoint)
    ensures IsSpace(c) <==> c in {
      9, 10, 11, 12, 13, 28, 29, 30, 31, 32, 133, 160, 5760, 8192, 8193, 8194, 8195, 8196, 8197, 8198, 8199, 8200, 8201,
      8202, 8232, 8233, 8239, 8287, 12288}
  {
  }

  // ---------------------------------------------------------------- the decoder

  /** `intBase16` is Python's `int(digits, 16)`, None where it raises ValueError. */
  type IntBase16 = Text -> Option<int>

  datatype Decoder = Decoder(escaped: bool, digits: Option<Text>, finished: bool)

  const Fresh := Decoder(false, None, false)

  function SimpleEscape(c: CodePoint): CodePoint {
    if c == 0x62 then 0x08
    else if c == 0x66 then 0x0C
    else if c == 0x6E then 0x0A
    else if c == 0x72 then 0x0D
    else if c == 0x74 then 0x09
    else c
  }

  /** `chr(int(digits, 16))`, or the replacement character where either raises ValueError. */
  function CharOf(value: Option<int>): CodePoint {
    if value.Some? && 0 <= value.value < 0x110000 then value.value else REPLACEMENT
  }

  function DecodeOne(f: IntBase16, d: Decoder, c: CodePoint): (Decoder, Text) {
    if d.finished then (d, [])
    else if d.digits.Some? then
      var digits := d.digits.value + [c];
      if |digits| == 4 then (Decoder(false, None, false), [CharOf(f(digits))])
      else (d.(digits := Some(digits)), [])
    else if d.escaped then
      if c == LETTER_U then (d.(digits := Some([])), [])
      else (d.(escaped := false), [SimpleEscape(c)])
    else if c == BACKSLASH then (d.(escaped := true), [])
    else if c == QUOTE then (d.(finished := true), [])
    else (d, [c])
  }

  function Decode(f: IntBase16, d: Decoder, t: Text): (Decoder, Text)
    decreases |t|
  {
    if t == [] then (d, [])
    else
      var (next, out) := DecodeOne(f, d, t[0]);
      var (end, rest) := Decode(f, next, t[1..]);
      (end, out + rest)
  }

  lemma {:induction false} DecodeJoin(f: IntBase16, d: Decoder, a: Text, b: Text)
    ensures
      var (mid, out) := Decode(f, d, a);
      var (end, rest) := Decode(f, mid, b);
      Decode(f, d, a + b) == (end, out + rest)
    decreases |a|
  {
    if a == [] {
      assert a + b == b;
      assert [] + Decode(f, d, b).1 == Decode(f, d, b).1;
    } else {
      assert (a + b)[1..] == a[1..] + b;
      var (next, out) := DecodeOne(f, d, a[0]);
      DecodeJoin(f, next, a[1..], b);
      var (mid, first) := Decode(f, next, a[1..]);
      var (end, rest) := Decode(f, mid, b);
      assert out + (first + rest) == (out + first) + rest;
    }
  }

  lemma {:induction false} FinishedDecodesNothing(f: IntBase16, d: Decoder, t: Text)
    requires d.finished
    ensures Decode(f, d, t) == (d, [])
    decreases |t|
  {
    if t != [] {
      FinishedDecodesNothing(f, d, t[1..]);
    }
  }

  // ---------------------------------------------------------------- feeding

  datatype State = Searching(prefix: Text) | Started(decoder: Decoder)

  const Initial := Searching([])

  function Fed(f: IntBase16, s: State, chunk: Text): (State, Text) {
    if chunk == [] || (s.Started? && s.decoder.finished) then (s, [])
    else if s.Searching? then
      var prefix := s.prefix + chunk;
      var found := Search(prefix, 0);
      if found.None? then (Searching(Suffix(prefix, KEPT_PREFIX)), [])
      else
        var (d, out) := Decode(f, Fresh, prefix[found.value.1..]);
        (Started(d), out)
    else
      var (d, out) := Decode(f, s.decoder, chunk);
      (Started(d), out)
  }

  /** The state after feeding every chunk, and all the output together, after `out`. */
  function FedAll(f: IntBase16, s: State, out: Text, chunks: seq<Text>): (State, Text)
    decreases |chunks|
  {
    if chunks == [] then (s, out)
    else
      var (next, more) := Fed(f, s, chunks[0]);
      FedAll(f, next, out + more, chunks[1..])
  }

  /** What the extractor is for: the decoded text after the leftmost marker of everything fed. */
  function Whole(f: IntBase16, t: Text): (State, Text) {
    var found := Search(t, 0);
    if found.None? then (Searching(Suffix(t, KEPT_PREFIX)), [])
    else
      var (d, out) := Decode(f, Fresh, t[found.value.1..]);
      (Started(d), out)
  }

  lemma FeedingWholeIsWhole(f: IntBase16, t: Text)
    ensures Fed(f, Initial, t) == Whole(f, t)
  {
    assert Initial.prefix + t == t;
    if t == [] {
      assert Search(t, 0) == None;
    }
  }

  // ---------------------------------------------------------------- what a marker looks like

  lemma {:induction false} SkipSpacesInTail(t: Text, shift: nat, i: nat)
    requires shift <= i <= |t|
    ensures SkipSpaces(t, i) == SkipSpaces(t[shift..], i - shift) + shift
    decreases |t| - i
  {
    if i < |t| && IsSpace(t[i]) {
      SkipSpacesInTail(t, shift, i + 1);
    }
  }

  /** A match is found again, shifted, in any tail that contains its start. */
  lemma MatchInTail(t: Text, shift: nat, i: nat)
    requires shift <= i <= |t|
    ensures MatchAt(t, i).Some? <==> MatchAt(t[shift..], i - shift).Some?
    ensures MatchAt(t, i).Some? ==> MatchAt(t, i).value == MatchAt(t[shift..], i - shift).value + shift
  {
    var u := t[shift..];
    if i + |KEY| <= |t| {
      SkipSpacesInTail(t, shift, i + |KEY|);
      var colon := SkipSpaces(t, i + |KEY|);
      if colon < |t| {
        SkipSpacesInTail(t, shift, colon + 1);
      }
    }
  }

  lemma {:induction false} SkipSpacesInHead(a: Text, b: Text, i: nat)
    requires i <= |a|
    ensures SkipSpaces(a, i) < |a| ==> SkipSpaces(a + b, i) == SkipSpaces(a, i)
    ensures SkipSpaces(a + b, i) < |a| ==> SkipSpaces(a + b, i) == SkipSpaces(a, i)
    decreases |a| - i
  {
    if i < |a| && IsSpace(a[i]) {
      SkipSpacesInHead(a, b, i + 1);
    }
  }

  /** A match depends only on the characters it covers. */
  lemma MatchInHead(a: Text, b: Text, i: nat)
    requires i <= |a|
    ensures MatchAt(a, i).Some? ==> MatchAt(a + b, i) == MatchAt(a, i)
    ensures MatchAt(a + b, i).Some? && MatchAt(a + b, i).value <= |a| ==> MatchAt(a, i) == MatchAt(a + b, i)
  {
    if i + |KEY| <= |a| {
      SkipSpacesInHead(a, b, i + |KEY|);
      var colon := SkipSpaces(a, i + |KEY|);
      if colon < |a| {
        SkipSpacesInHead(a, b, colon + 1);
      }
    }
  }

  /** No match starts inside another one. */
  lemma NoMatchInside(t: Text, i: nat, end: nat, k: nat)
    requires i <= |t| && MatchAt(t, i) == Some(end) && i < k < end - 1
    ensures MatchAt(t, k) == None
  {
    var colon := SkipSpaces(t, i + |KEY|);
    var open := SkipSpaces(t, colon + 1);
    assert open == end - 1 && t[colon] == COLON;
    assert t[k] == QUOTE ==> k == i + 7;
    assert t[i + |KEY|] != 0x73;
  }

  /** `Search` finds a match whenever there is one, and no match starts before it. */
  lemma {:induction false} SearchFindsLeftmost(t: Text, i: nat, k: nat)
    requires i <= k <= |t| && MatchAt(t, k).Some?
    ensures Search(t, i).Some? && Search(t, i).value.0 <= k
    decreases k - i
  {
    if i < k && MatchAt(t, i).None? {
      SearchFindsLeftmost(t, i + 1, k);
    }
  }

  /** Matches are ordered: the leftmost match also ends first. */
  lemma LeftmostEndsFirst(t: Text, k: nat)
    requires k <= |t| && MatchAt(t, k).Some?
    ensures Search(t, 0).Some? && Search(t, 0).value.1 <= MatchAt(t, k).value
  {
    SearchFindsLeftmost(t, 0, k);
    var (i, end) := Search(t, 0).value;
    if i < k < end - 1 {
      NoMatchInside(t, i, end, k);
    }
  }

  // ---------------------------------------------------------------- independence of the split

  /** The widest marker that survives every split: 64 kept characters and the one that completes it. */
  const WIDEST: nat := KEPT_PREFIX + 1

  /** The leftmost marker of `t`, if any, is not wider than the extractor can remember. */
  predicate Narrow(t: Text) {
    Search(t, 0).Some? ==> Search(t, 0).value.1 - Search(t, 0).value.0 <= WIDEST
  }

  /** What is found, `n` places further on. */
  function Later(found: Option<(nat, nat)>, n: nat): Option<(nat, nat)> {
    if found.None? then None else Some((found.value.0 + n, found.value.1 + n))
  }

  lemma {:induction false} SearchFromShift(t: Text, shift: nat, i: nat)
    requires shift <= i <= |t|
    ensures Search(t, i) == Later(Search(t[shift..], i - shift), shift)
    decreases |t| - i
  {
    MatchInTail(t, shift, i);
    if MatchAt(t, i).None? && i < |t| {
      SearchFromShift(t, shift, i + 1);
    }
  }

  lemma {:induction false} SearchSkips(t: Text, i: nat, j: nat)
    requires i <= j <= |t|
    requires Search(t, i).Some? ==> j <= Search(t, i).value.0
    ensures Search(t, i) == Search(t, j)
    decreases j - i
  {
    if i < j {
      SearchSkips(t, i + 1, j);
    }
  }

  /** Searching a tail that still contains the leftmost match finds that match. */
  lemma SearchInTail(t: Text, shift: nat)
    requires shift <= |t|
    requires Search(t, 0).Some? ==> shift <= Search(t, 0).value.0
    ensures Search(t, 0) == Later(Search(t[shift..], 0), shift)
  {
    SearchSkips(t, 0, shift);
    SearchFromShift(t, shift, shift);
  }

  lemma BeginningKeepsMatch(a: Text, b: Text)
    requires Search(a, 0).Some?
    ensures Search(a + b, 0) == Search(a, 0)
  {
    var (i, end) := Search(a, 0).value;
    assert MatchAt(a + b, i) == Some(end) by { MatchInHead(a, b, i); }
    LeftmostEndsFirst(a + b, i);
    SearchFindsLeftmost(a + b, 0, i);
    var (k, end') := Search(a + b, 0).value;
    assert MatchAt(a, k) == Some(end') by { MatchInHead(a, b, k); }
    SearchFindsLeftmost(a, 0, k);
  }

  lemma NewMatchReachesBeyond(a: Text, b: Text)
    requires Search(a, 0).None? && Search(a + b, 0).Some?
    ensures Search(a + b, 0).value.1 > |a|
  {
    var (k, end) := Search(a + b, 0).value;
    if end <= |a| {
      MatchInHead(a, b, k);
      SearchFindsLeftmost(a, 0, k);
    }
  }

  /** The leftmost match of a beginning is the leftmost match of the whole. */
  lemma SearchOfBeginning(a: Text, b: Text)
    ensures Search(a, 0).Some? ==> Search(a + b, 0) == Search(a, 0)
    ensures Search(a, 0).None? && Search(a + b, 0).Some? ==> Search(a + b, 0).value.1 > |a|
  {
    if Search(a, 0).Some? {
      BeginningKeepsMatch(a, b);
    } else if Search(a + b, 0).Some? {
      NewMatchReachesBeyond(a, b);
    }
  }

  /** One more chunk while searching: the kept tail finds the same match as the whole text would. */
  lemma SearchingStep(f: IntBase16, t: Text, chunk: Text)
    requires Search(t, 0).None? && Narrow(t + chunk)
    ensures Fed(f, Searching(Suffix(t, KEPT_PREFIX)), chunk) == Whole(f, t + chunk)
  {
    if chunk == [] {
      assert t + chunk == t;
    } else {
      KeptTailFindsTheSame(t, chunk);
      SuffixAfterSuffix(t, chunk, KEPT_PREFIX);
    }
  }

  /** The kept tail and the next chunk hold the same leftmost marker as the whole text, with the same rest after it. */
  lemma KeptTailFindsTheSame(t: Text, chunk: Text)
    requires Search(t, 0).None? && Narrow(t + chunk) && chunk != []
    ensures
      var whole, tail := t + chunk, Suffix(t, KEPT_PREFIX) + chunk;
      && (Search(tail, 0).None? <==> Search(whole, 0).None?)
      && (Search(whole, 0).Some? ==> tail[Search(tail, 0).value.1..] == whole[Search(whole, 0).value.1..])
  {
    var whole, kept := t + chunk, Suffix(t, KEPT_PREFIX);
    var shift := |t| - |kept|;
    assert kept + chunk == whole[shift..];
    SearchOfBeginning(t, chunk);
    SearchInTail(whole, shift);
    if Search(whole, 0).Some? {
      var end := Search(whole, 0).value.1;
      assert whole[shift..][end - shift..] == whole[end..];
    }
  }

  lemma FedStarted(f: IntBase16, d: Decoder, chunk: Text)
    ensures Fed(f, Started(d), chunk) == (Started(Decode(f, d, chunk).0), Decode(f, d, chunk).1)
  {
    if d.finished {
      FinishedDecodesNothing(f, d, chunk);
    }
  }

  lemma WholeFrom(f: IntBase16, t: Text, from: nat)
    requires Search(t, 0).Some? && Search(t, 0).value.1 == from <= |t|
    ensures Whole(f, t) == (Started(Decode(f, Fresh, t[from..]).0), Decode(f, Fresh, t[from..]).1)
  {
  }

  /** Once started, the decoder has consumed everything after the marker. */
  lemma StartedStep(f: IntBase16, t: Text, chunk: Text)
    requires Search(t, 0).Some?
    ensures
      var (s, out) := Whole(f, t);
      var (s', out') := Fed(f, s, chunk);
      Whole(f, t + chunk) == (s', out + out')
  {
    SearchOfBeginning(t, chunk);
    var from := Search(t, 0).value.1;
    assert (t + chunk)[from..] == t[from..] + chunk;
    DecodeJoin(f, Fresh, t[from..], chunk);
    WholeFrom(f, t, from);
    WholeFrom(f, t + chunk, from);
    FedStarted(f, Decode(f, Fresh, t[from..]).0, chunk);
  }

  /** Feeding one more chunk is extending the text, while the marker fits. */
  lemma OneMoreChunk(f: IntBase16, t: Text, chunk: Text)
    requires Narrow(t + chunk)
    ensures
      var (s, out) := Whole(f, t);
      var (s', out') := Fed(f, s, chunk);
      Whole(f, t + chunk) == (s', out + out')
  {
    if Search(t, 0).None? {
      SearchingStep(f, t, chunk);
      assert [] + Whole(f, t + chunk).1 == Whole(f, t + chunk).1;
    } else {
      StartedStep(f, t, chunk);
    }
  }

  lemma {:induction false} SplitFrom(f: IntBase16, t: Text, chunks: seq<Text>)
    requires Narrow(t + Flatten(chunks))
    ensures FedAll(f, Whole(f, t).0, Whole(f, t).1, chunks) == Whole(f, t + Flatten(chunks))
    decreases |chunks|
  {
    if chunks == [] {
      assert t + Flatten(chunks) == t;
    } else {
      var next, later := t + chunks[0], Flatten(chunks[1..]);
      assert t + Flatten(chunks) == next + later;
      NarrowBeginning(next, later);
      OneMoreChunk(f, t, chunks[0]);
      SplitFrom(f, next, chunks[1..]);
    }
  }

  lemma NarrowBeginning(a: Text, b: Text)
    requires Narrow(a + b)
    ensures Narrow(a)
  {
    SearchOfBeginning(a, b);
  }

  /** Any split of a text whose leftmost marker is at most 65 characters wide gives the same output. */
  lemma SplitDoesNotMatter(f: IntBase16, chunks: seq<Text>)
    requires Narrow(Flatten(chunks))
    ensures FedAll(f, Initial, [], chunks) == Fed(f, Initial, Flatten(chunks)) == Whole(f, Flatten(chunks))
  {
    FeedingWholeIsWhole(f, Flatten(chunks));
    FeedingWholeIsWhole(f, []);
    assert [] + Flatten(chunks) == Flatten(chunks);
    SplitFrom(f, [], chunks);
  }

  lemma NotFoundWithoutItsEnd(t: Text)
    requires Search(t, 0).Some? && Search(t, 0).value.1 == |t|
    ensures Search(t[..|t| - 1], 0).None?
  {
    var a := t[..|t| - 1];
    assert a + [t[|t| - 1]] == t;
    if Search(a, 0).Some? {
      BeginningKeepsMatch(a, [t[|t| - 1]]);
    }
  }

  /** Past the start of a text's only marker there is nothing to find, even with one more character. */
  lemma NothingPastTheStart(t: Text, last: CodePoint, shift: nat)
    requires Search(t, 0).Some? && Search(t, 0).value.1 == |t| && Search(t, 0).value.0 < shift <= |t|
    requires last != QUOTE
    ensures Search((t + [last])[shift..], 0).None?
  {
    var u, i := t + [last], Search(t, 0).value.0;
    SearchFromShift(u, shift, shift);
    if Search(u, shift).Some? {
      var k := Search(u, shift).value.0;
      MatchInHead(t, [last], i);
      if k < |t| - 1 {
        NoMatchInside(u, i, |t|, k);
      }
    }
  }

  lemma FlattenTwo(a: Text, b: Text)
    ensures Flatten([a, b]) == a + b
  {
    assert [a, b][1..] == [b];
    assert Flatten([b]) == b + [] == b;
  }

  lemma FedTwo(f: IntBase16, s: State, a: Text, b: Text)
    requires Fed(f, Initial, a) == (s, [])
    ensures FedAll(f, Initial, [], [a, b]) == Fed(f, s, b)
  {
    var (next, out) := Fed(f, s, b);
    assert [a, b][1..] == [b];
    assert FedAll(f, Initial, [], [a, b]) == FedAll(f, s, [] + [], [b]);
    assert [b][1..] == [];
    assert FedAll(f, s, [], [b]) == FedAll(f, next, [] + out, []);
    assert [] + out == out;
  }

  lemma LostAcrossTwo(f: IntBase16, a: Text, b: Text)
    requires Search(a, 0).None? && b != []
    requires Search(Suffix(a, KEPT_PREFIX) + b, 0).None?
    ensures FedAll(f, Initial, [], [a, b]).1 == []
  {
    FeedingWholeIsWhole(f, a);
    FedTwo(f, Searching(Suffix(a, KEPT_PREFIX)), a, b);
  }

  lemma WholeWithOneMore(f: IntBase16, t: Text, last: CodePoint)
    requires last != QUOTE && last != BACKSLASH
    requires Search(t, 0).Some? && Search(t, 0).value.1 == |t|
    ensures Whole(f, t + [last]).1 == [last]
  {
    BeginningKeepsMatch(t, [last]);
    DecodeCons(f, Fresh, last, []);
    assert (t + [last])[|t|..] == [last] + [];
  }

  /** A marker wider than 65 characters is lost when its last character comes in a later chunk. */
  lemma WideMarkerIsLost(f: IntBase16, t: Text, last: CodePoint)
    requires last != QUOTE && last != BACKSLASH
    requires Search(t, 0).Some? && Search(t, 0).value.1 == |t| && !Narrow(t)
    ensures
      var chunks := [t[..|t| - 1], [QUOTE, last]];
      && Flatten(chunks) == t + [last]
      && FedAll(f, Initial, [], chunks).1 == []
      && Whole(f, Flatten(chunks)).1 == [last]
  {
    var a, b := t[..|t| - 1], [QUOTE, last];
    WideMarkerNotFound(t, last);
    LostAcrossTwo(f, a, b);
    WholeWithOneMore(f, t, last);
    FlattenTwo(a, b);
    CutBeforeLast(t, QUOTE, last);
  }

  lemma MarkerEndsInQuote(t: Text)
    requires Search(t, 0).Some? && Search(t, 0).value.1 == |t|
    ensures t != [] && t[|t| - 1] == QUOTE
  {
    assert MatchAt(t, Search(t, 0).value.0) == Some(|t|);
  }

  lemma CutBeforeLast(t: Text, end: CodePoint, last: CodePoint)
    requires t != [] && t[|t| - 1] == end
    ensures t[..|t| - 1] + [end, last] == t + [last]
  {
  }

  lemma TailOfCut(t: Text, b: Text, n: nat)
    requires n <= |t|
    ensures Suffix(t, n) + b == (t + b)[|t| - n..]
  {
  }

  /** Neither the text without its last character nor the kept tail with the rest holds a marker. */
  lemma WideMarkerNotFound(t: Text, last: CodePoint)
    requires last != QUOTE
    requires Search(t, 0).Some? && Search(t, 0).value.1 == |t| && !Narrow(t)
    ensures t[|t| - 1] == QUOTE
    ensures Search(t[..|t| - 1], 0).None?
    ensures Search(Suffix(t[..|t| - 1], KEPT_PREFIX) + [QUOTE, last], 0).None?
  {
    var a := t[..|t| - 1];
    MarkerEndsInQuote(t);
    NotFoundWithoutItsEnd(t);
    NothingPastTheStart(t, last, |a| - KEPT_PREFIX);
    CutBeforeLast(t, QUOTE, last);
    TailOfCut(a, [QUOTE, last], KEPT_PREFIX);
  }

  lemma NarrowStaysNarrow(t: Text, whole: Text)
    requires Search(t, 0).Some? && Narrow(t) && t <= whole
    ensures Narrow(whole)
  {
    assert whole == t + whole[|t|..];
    BeginningKeepsMatch(t, whole[|t|..]);
  }

  ghost predicate Agree(f: IntBase16, chunks: seq<Text>) {
    FedAll(f, Initial, [], chunks).1 == Whole(f, Flatten(chunks)).1
  }

  /**
   * Take a text that ends with its leftmost marker. Whatever is streamed after it, in whatever
   * chunks, the output is that of the whole text if and only if the marker is at most 65 wide.
   */
  lemma SplitsAgreeIffNarrow(f: IntBase16, t: Text)
    requires Search(t, 0).Some? && Search(t, 0).value.1 == |t|
    ensures (forall chunks :: t <= Flatten(chunks) ==> Agree(f, chunks))
      <==> Narrow(t)
  {
    if Narrow(t) {
      forall chunks | t <= Flatten(chunks) ensures Agree(f, chunks) {
        NarrowStaysNarrow(t, Flatten(chunks));
        SplitDoesNotMatter(f, chunks);
      }
    } else {
      var chunks := LosingChunks(f, t);
    }
  }

  lemma LosingChunks(f: IntBase16, t: Text) returns (chunks: seq<Text>)
    requires Search(t, 0).Some? && Search(t, 0).value.1 == |t| && !Narrow(t)
    ensures t <= Flatten(chunks) && !Agree(f, chunks)
  {
    WideMarkerIsLost(f, t, 0x61);
    chunks := [t[..|t| - 1], [QUOTE, 0x61]];
  }

  // ---------------------------------------------------------------- a marker that is too wide

  /** The key, `n` spaces, a colon and a quote. */
  function SpacedMarker(n: nat): (t: Text)
    ensures |t| == n + 10
  {
    KEY + seq(n, i => 0x20) + [COLON, QUOTE]
  }

  /** The marker with n spaces is found at once, and is narrow exactly with at most 55 of them. */
  lemma SpacedMarkerIsWide(n: nat)
    ensures Search(SpacedMarker(n), 0) == Some((0, n + 10))
    ensures Narrow(SpacedMarker(n)) <==> n <= 55
  {
    var t := SpacedMarker(n);
    assert forall k | 8 <= k < n + 8 :: t[k] == 0x20;
    assert t[n + 8] == COLON && t[n + 9] == QUOTE;
    assert KeyAt(t, 0);
    assert SkipSpaces(t, 8) == n + 8;
    assert SkipSpaces(t, n + 9) == n + 9;
  }

  /** Sixty spaces before the colon, and a cut before the opening quote: the string is lost. */
  lemma SixtySpacesLoseTheString(f: IntBase16)
    ensures
      var chunks := [KEY + seq(60, i => 0x20) + [COLON], [QUOTE, 0x61]];
      FedAll(f, Initial, [], chunks).1 == [] && Whole(f, Flatten(chunks)).1 == [0x61]
  {
    var t := SpacedMarker(60);
    SpacedMarkerIsWide(60);
    WideMarkerIsLost(f, t, 0x61);
    assert t[..|t| - 1] == KEY + seq(60, i => 0x20) + [COLON];
  }

  // ---------------------------------------------------------------- JSON strings

  /** The ways section 7 of RFC 8259 lets one code unit of a string be spelled. */
  datatype Spelling = Raw(c: CodePoint) | Simple(letter: CodePoint) | Hex(digits: Text)

  predicate IsHexDigit(c: CodePoint) {
    0x30 <= c <= 0x39 || 0x41 <= c <= 0x46 || 0x61 <= c <= 0x66
  }

  function HexDigit(c: CodePoint): (v: nat)
    requires IsHexDigit(c)
    ensures v < 16
  {
    if c <= 0x39 then c - 0x30 else if c <= 0x46 then c - 0x41 + 10 else c - 0x61 + 10
  }

  predicate IsHex4(d: Text) {
    |d| == 4 && IsHexDigit(d[0]) && IsHexDigit(d[1]) && IsHexDigit(d[2]) && IsHexDigit(d[3])
  }

  function Hex4(d: Text): CodePoint
    requires IsHex4(d)
  {
    HexDigit(d[0]) * 0x1000 + HexDigit(d[1]) * 0x100 + HexDigit(d[2]) * 0x10 + HexDigit(d[3])
  }

  /** Python reads four hexadecimal digits as the number they denote. */
  ghost predicate ReadsHex(f: IntBase16) {
    forall d :: IsHex4(d) ==> f(d) == Some(Hex4(d))
  }

  predicate Legal(e: Spelling) {
    match e
    case Raw(c) => c >= 0x20 && c != QUOTE && c != BACKSLASH
    case Simple(c) =>
      c == QUOTE || c == BACKSLASH || c == 0x2F || c == 0x62 || c == 0x66 || c == 0x6E || c == 0x72 || c == 0x74
    case Hex(digits) => IsHex4(digits)
  }

  function Spell(e: Spelling): Text {
    match e
    case Raw(c) => [c]
    case Simple(letter) => [BACKSLASH, letter]
    case Hex(digits) => [BACKSLASH, LETTER_U] + digits
  }

  /** The two-character escapes: backspace, form feed, line feed, carriage return, tab, or the letter itself. */
  function DenotedBy(letter: CodePoint): CodePoint {
    match letter
    case 0x62 => 8
    case 0x66 => 12
    case 0x6E => 10
    case 0x72 => 13
    case 0x74 => 9
    case _ => letter
  }

  function Denotes(e: Spelling): CodePoint
    requires Legal(e)
  {
    match e
    case Raw(c) => c
    case Simple(letter) => DenotedBy(letter)
    case Hex(digits) => Hex4(digits)
  }

  ghost predicate AllLegal(es: seq<Spelling>) {
    forall i :: 0 <= i < |es| ==> Legal(es[i])
  }

  function SpellAll(es: seq<Spelling>): Text {
    if es == [] then [] else Spell(es[0]) + SpellAll(es[1..])
  }

  ghost function DenoteEach(es: seq<Spelling>): (t: Text)
    requires AllLegal(es)
    ensures |t| == |es|
    ensures forall i :: 0 <= i < |es| ==> t[i] == Denotes(es[i])
  {
    if es == [] then [] else [Denotes(es[0])] + DenoteEach(es[1..])
  }

  predicate StartsPair(es: seq<Spelling>) {
    && |es| >= 2 && es[0].Hex? && es[1].Hex? && IsHex4(es[0].digits) && IsHex4(es[1].digits)
    && 0xD800 <= Hex4(es[0].digits) < 0xDC00 && 0xDC00 <= Hex4(es[1].digits) < 0xE000
  }

  /** The JSON string: a high and a low surrogate escape together denote one character. */
  ghost function Meaning(es: seq<Spelling>): (t: Text)
    requires AllLegal(es)
    ensures |t| <= |es|
  {
    if es == [] then []
    else if StartsPair(es) then
      [0x10000 + (Hex4(es[0].digits) - 0xD800) * 0x400 + (Hex4(es[1].digits) - 0xDC00)] + Meaning(es[2..])
    else [Denotes(es[0])] + Meaning(es[1..])
  }

  ghost predicate HasPair(es: seq<Spelling>) {
    exists i :: 0 <= i < |es| && StartsPair(es[i..])
  }

  lemma PairIsHereOrLater(es: seq<Spelling>)
    requires es != []
    ensures HasPair(es) <==> StartsPair(es) || HasPair(es[1..])
  {
    assert es[0..] == es;
    forall i | 0 < i < |es| ensures es[i..] == es[1..][i - 1..] {
    }
    if HasPair(es) {
      var i :| 0 <= i < |es| && StartsPair(es[i..]);
      if i > 0 { assert StartsPair(es[1..][i - 1..]); }
    }
    if HasPair(es[1..]) {
      var i :| 0 <= i < |es[1..]| && StartsPair(es[1..][i..]);
      assert StartsPair(es[i + 1..]);
    }
  }

  /** Decoding code unit by code unit is the JSON string exactly when no surrogate pair is escaped. */
  lemma {:induction false} MeaningIsEachUnlessPaired(es: seq<Spelling>)
    requires AllLegal(es)
    ensures DenoteEach(es) == Meaning(es) <==> !HasPair(es)
    decreases |es|
  {
    if es != [] {
      PairIsHereOrLater(es);
      if StartsPair(es) {
        assert |Meaning(es)| < |DenoteEach(es)|;
      } else {
        MeaningIsEachUnlessPaired(es[1..]);
        assert Meaning(es)[1..] == Meaning(es[1..]);
        assert DenoteEach(es)[1..] == DenoteEach(es[1..]);
      }
    }
  }

  /** A character the decoder takes in without emitting anything yet. */
  lemma DecodeSilent(f: IntBase16, d: Decoder, next: Decoder, c: CodePoint, t: Text)
    requires DecodeOne(f, d, c) == (next, [])
    ensures Decode(f, d, [c] + t) == Decode(f, next, t)
  {
    DecodeCons(f, d, c, t);
    assert [] + Decode(f, next, t).1 == Decode(f, next, t).1;
  }

  lemma DecodeLast(f: IntBase16, d: Decoder, c: CodePoint, value: CodePoint)
    requires DecodeOne(f, d, c) == (Fresh, [value])
    ensures Decode(f, d, [c]) == (Fresh, [value])
  {
    assert [c] + [] == [c];
    DecodeCons(f, d, c, []);
    assert [value] + [] == [value];
  }

  lemma DecodeHex(f: IntBase16, digits: Text)
    requires ReadsHex(f) && IsHex4(digits)
    ensures Decode(f, Decoder(true, Some([]), false), digits) == (Fresh, [Hex4(digits)])
  {
    var (a, b, c, d) := (digits[0], digits[1], digits[2], digits[3]);
    assert digits == [a] + ([b] + ([c] + [d]));
    assert [] + [a] == [a] && [a] + [b] == [a, b] && [a, b] + [c] == [a, b, c];
    DecodeSilent(f, Decoder(true, Some([]), false), Decoder(true, Some([a]), false), a, [b] + ([c] + [d]));
    DecodeSilent(f, Decoder(true, Some([a]), false), Decoder(true, Some([a, b]), false), b, [c] + [d]);
    DecodeSilent(f, Decoder(true, Some([a, b]), false), Decoder(true, Some([a, b, c]), false), c, [d]);
    assert [a, b, c] + [d] == digits;
    DecodeLast(f, Decoder(true, Some([a, b, c]), false), d, Hex4(digits));
  }

  lemma DecodeSpelling(f: IntBase16, e: Spelling)
    requires ReadsHex(f) && Legal(e)
    ensures Decode(f, Fresh, Spell(e)) == (Fresh, [Denotes(e)])
  {
    match e {
      case Raw(c) => DecodeLast(f, Fresh, c, c);
      case Simple(letter) =>
        assert Spell(e) == [BACKSLASH] + [letter];
        DecodeSilent(f, Fresh, Decoder(true, None, false), BACKSLASH, [letter]);
        DecodeLast(f, Decoder(true, None, false), letter, SimpleEscape(letter));
      case Hex(digits) =>
        assert Spell(e) == [BACKSLASH] + ([LETTER_U] + digits);
        DecodeSilent(f, Fresh, Decoder(true, None, false), BACKSLASH, [LETTER_U] + digits);
        DecodeSilent(f, Decoder(true, None, false), Decoder(true, Some([]), false), LETTER_U, digits);
        DecodeHex(f, digits);
    }
  }

  lemma DecodeCons(f: IntBase16, d: Decoder, c: CodePoint, t: Text)
    ensures
      var (next, out) := DecodeOne(f, d, c);
      Decode(f, d, [c] + t) == (Decode(f, next, t).0, out + Decode(f, next, t).1)
  {
    assert ([c] + t)[1..] == t;
  }

  lemma {:induction false} DecodeSpellings(f: IntBase16, es: seq<Spelling>)
    requires ReadsHex(f) && AllLegal(es)
    ensures Decode(f, Fresh, SpellAll(es)) == (Fresh, DenoteEach(es))
    decreases |es|
  {
    if es != [] {
      DecodeSpelling(f, es[0]);
      DecodeSpellings(f, es[1..]);
      DecodeJoin(f, Fresh, Spell(es[0]), SpellAll(es[1..]));
    }
  }

  /** The document up to and including its marker, the spelled string, the closing quote, and the rest. */
  function Document(marked: Text, es: seq<Spelling>, rest: Text): Text {
    marked + SpellAll(es) + [QUOTE] + rest
  }

  lemma WholeDocument(f: IntBase16, marked: Text, es: seq<Spelling>, rest: Text)
    requires ReadsHex(f) && AllLegal(es)
    requires Search(marked, 0).Some? && Search(marked, 0).value.1 == |marked|
    ensures Whole(f, Document(marked, es, rest)) == (Started(Decoder(false, None, true)), DenoteEach(es))
  {
    var tail := [QUOTE] + rest;
    var body := SpellAll(es) + tail;
    Reassociate(marked, SpellAll(es), [QUOTE], rest);
    BeginningKeepsMatch(marked, body);
    assert (marked + body)[|marked|..] == body;
    DecodeBody(f, es, rest);
  }

  lemma Reassociate(a: Text, b: Text, c: Text, d: Text)
    ensures a + b + c + d == a + (b + (c + d))
  {
  }

  lemma DecodeBody(f: IntBase16, es: seq<Spelling>, rest: Text)
    requires ReadsHex(f) && AllLegal(es)
    ensures Decode(f, Fresh, SpellAll(es) + ([QUOTE] + rest)) == (Decoder(false, None, true), DenoteEach(es))
  {
    DecodeSpellings(f, es);
    DecodeJoin(f, Fresh, SpellAll(es), [QUOTE] + rest);
    DecodeCons(f, Fresh, QUOTE, rest);
    FinishedDecodesNothing(f, Decoder(false, None, true), rest);
    assert DenoteEach(es) + ([] + []) == DenoteEach(es);
  }

  /**
   * However a document is split, the extractor outputs exactly the code units its string spells and
   * nothing after the closing quote; that is the JSON string if and only if no surrogate pair is
   * written as escapes.
   */
  lemma ExtractsTheString(f: IntBase16, chunks: seq<Text>, marked: Text, es: seq<Spelling>, rest: Text)
    requires ReadsHex(f) && AllLegal(es)
    requires Search(marked, 0).Some? && Search(marked, 0).value.1 == |marked| && Narrow(marked)
    requires Flatten(chunks) == Document(marked, es, rest)
    ensures FedAll(f, Initial, [], chunks) == (Started(Decoder(false, None, true)), DenoteEach(es))
    ensures FedAll(f, Initial, [], chunks).1 == Meaning(es) <==> !HasPair(es)
  {
    Reassociate(marked, SpellAll(es), [QUOTE], rest);
    NarrowStaysNarrow(marked, Flatten(chunks));
    SplitDoesNotMatter(f, chunks);
    WholeDocument(f, marked, es, rest);
    MeaningIsEachUnlessPaired(es);
  }

  // ---------------------------------------------------------------- the extractor object

  class StreamingSpokenExtractor {
    const intBase16: IntBase16
    var prefix: Text
    var started: bool
    var finished: bool
    var escaped: bool
    var unicodeDigits: Option<Text>

    ghost predicate Valid()
      reads this
    {
      && (started ==> prefix == [])
      && (!started ==> !finished && !escaped && unicodeDigits == None)
      && (unicodeDigits.Some? ==> |unicodeDigits.value| < 4)
    }

    ghost function State(): State
      reads this
    {
      if started then Started(Decoder(escaped, unicodeDigits, finished)) else Searching(prefix)
    }

    constructor (intBase16: IntBase16)
      ensures this.intBase16 == intBase16 && Valid() && State() == Initial
    {
      this.intBase16 := intBase16;
      prefix, started, finished, escaped, unicodeDigits := [], false, false, false, None;
    }

    method Feed(input: Text) returns (decoded: Text)
      requires Valid()
      modifies this
      ensures Valid()
      ensures (State(), decoded) == Fed(intBase16, old(State()), input)
    {
      decoded := [];
      if finished || input == [] {
        return;
      }
      var chunk := input;
      if !started {
        prefix := prefix + chunk;
        var found := Search(prefix, 0);
        if found.None? {
          prefix := Suffix(prefix, KEPT_PREFIX);
          return;
        }
        chunk := prefix[found.value.1..];
        prefix := [];
        started := true;
      }
      decoded := DecodeChunk(chunk);
    }

    /** The character loop of a started extractor. */
    method DecodeChunk(chunk: Text) returns (decoded: Text)
      requires Valid() && started
      modifies this
      ensures Valid() && started
      ensures (Decoder(escaped, unicodeDigits, finished), decoded) ==
                Decode(intBase16, old(Decoder(escaped, unicodeDigits, finished)), chunk)
    {
      ghost var begin := Decoder(escaped, unicodeDigits, finished);
      decoded := [];
      var i := 0;
      while i < |chunk| && !finished
        invariant i <= |chunk| && Valid() && started
        invariant Remaining(begin, chunk, Decoder(escaped, unicodeDigits, finished), decoded, chunk[i..])
      {
        ghost var before, emitted := Decoder(escaped, unicodeDigits, finished), decoded;
        var character := chunk[i];
        if unicodeDigits.Some? {
          var digits := unicodeDigits.value + [character];
          if |digits| == 4 {
            decoded := decoded + [CharOf(intBase16(digits))];
            unicodeDigits := None;
            escaped := false;
          } else {
            unicodeDigits := Some(digits);
          }
        } else if escaped {
          if character == LETTER_U {
            unicodeDigits := Some([]);
          } else {
            decoded := decoded + [SimpleEscape(character)];
            escaped := false;
          }
        } else if character == BACKSLASH {
          escaped := true;
        } else if character == QUOTE {
          finished := true;
        } else {
          decoded := decoded + [character];
        }
        assert DecodeOne(intBase16, before, character).0 == Decoder(escaped, unicodeDigits, finished);
        assert decoded == emitted + DecodeOne(intBase16, before, character).1;
        RemainingStep(begin, chunk, before, emitted, chunk[i..]);
        assert chunk[i..][1..] == chunk[i + 1..];
        i := i + 1;
      }
      if finished {
        FinishedDecodesNothing(intBase16, Decoder(escaped, unicodeDigits, finished), chunk[i..]);
      }
      assert decoded + [] == decoded;
    }

    /** Decoding the whole chunk is what was emitted so far, then decoding what is left. */
    ghost predicate Remaining(begin: Decoder, chunk: Text, d: Decoder, emitted: Text, left: Text) {
      && Decode(intBase16, begin, chunk).0 == Decode(intBase16, d, left).0
      && Decode(intBase16, begin, chunk).1 == emitted + Decode(intBase16, d, left).1
    }

    lemma RemainingStep(begin: Decoder, chunk: Text, d: Decoder, emitted: Text, left: Text)
      requires left != [] && Remaining(begin, chunk, d, emitted, left)
      ensures
        var (next, out) := DecodeOne(intBase16, d, left[0]);
        Remaining(begin, chunk, next, emitted + out, left[1..])
    {
      var (next, out) := DecodeOne(intBase16, d, left[0]);
      assert emitted + (out + Decode(intBase16, next, left[1..]).1)
        == (emitted + out) + Decode(intBase16, next, left[1..]).1;
    }
  }
}

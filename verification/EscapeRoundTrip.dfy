/**
 * The serializer's escapes against an independent reader: the JSON string decoder of the voice
 * edge reads back exactly the string the artifact version code wrote.
 */
module EscapeRoundTrip {
  import opened Collections
  import opened CanonicalJson
  import S = SpokenExtractors

  function Codes(s: string): S.Text {
    if s == "" then [] else [s[0] as int] + Codes(s[1..])
  }

  lemma {:induction false} CodesJoin(a: string, b: string)
    ensures Codes(a + b) == Codes(a) + Codes(b)
  {
    if a == "" {
      assert a + b == b;
    } else {
      assert (a + b)[1..] == a[1..] + b;
      CodesJoin(a[1..], b);
    }
  }

  /** How RFC 8259 would describe the escape the serializer writes for a character. */
  function SpellingOf(c: char, html: bool): S.Spelling {
    if ShortEscape(c) != '\0' then S.Simple(ShortEscape(c) as int)
    else if LongEscape(c, html) then S.Hex(Codes(Hex4(c as int)))
    else S.Raw(c as int)
  }

  lemma HexReadsBack(n: nat)
    requires n < 16
    ensures S.IsHexDigit(HexDigit(n) as int) && S.HexDigit(HexDigit(n) as int) == n
  {
  }

  lemma FourCodes(a: char, b: char, c: char, d: char)
    ensures Codes([a, b, c, d]) == [a as int, b as int, c as int, d as int]
  {
    assert [a, b, c, d][1..] == [b, c, d] && [b, c, d][1..] == [c, d] && [c, d][1..] == [d] && [d][1..] == [];
    assert Codes([d]) == [d as int] && Codes([c, d]) == [c as int, d as int];
    assert Codes([b, c, d]) == [b as int, c as int, d as int];
  }

  lemma Hex4ReadsBack(n: nat)
    requires n < 0x10000
    ensures S.IsHex4(Codes(Hex4(n))) && S.Hex4(Codes(Hex4(n))) == n
  {
    FourCodes(HexDigit(n / 0x1000), HexDigit(n / 0x100 % 16), HexDigit(n / 16 % 16), HexDigit(n % 16));
    HexReadsBack(n / 0x1000);
    HexReadsBack(n / 0x100 % 16);
    HexReadsBack(n / 16 % 16);
    HexReadsBack(n % 16);
    HexParts(n);
  }

  lemma ShortReadsBack(c: char, html: bool)
    requires ShortEscape(c) != '\0'
    ensures S.Legal(SpellingOf(c, html)) && S.Denotes(SpellingOf(c, html)) == c as int
    ensures Codes(Escape(c, html)) == S.Spell(SpellingOf(c, html))
  {
    var letter := ShortEscape(c);
    CodesJoin(['\\'], [letter]);
    assert ['\\'][1..] == [] && [letter][1..] == [];
    assert ['\\', letter] == ['\\'] + [letter];
  }

  lemma LongCodes(digits: string)
    ensures Codes(['\\', 'u'] + digits) == [S.BACKSLASH, S.LETTER_U] + Codes(digits)
  {
    CodesJoin(['\\', 'u'], digits);
    CodesJoin(['\\'], ['u']);
    assert ['\\'][1..] == [] && ['u'][1..] == [];
    assert ['\\', 'u'] == ['\\'] + ['u'];
  }

  lemma LongReadsBack(c: char, html: bool)
    requires ShortEscape(c) == '\0' && LongEscape(c, html)
    ensures S.Legal(SpellingOf(c, html)) && S.Denotes(SpellingOf(c, html)) == c as int
    ensures Codes(Escape(c, html)) == S.Spell(SpellingOf(c, html))
  {
    Hex4ReadsBack(c as int);
    LongCodes(Hex4(c as int));
  }

  /** Every escape is legal JSON and denotes its character. */
  lemma EscapeIsLegal(c: char, html: bool)
    ensures S.Legal(SpellingOf(c, html)) && S.Denotes(SpellingOf(c, html)) == c as int
    ensures Codes(Escape(c, html)) == S.Spell(SpellingOf(c, html))
  {
    if ShortEscape(c) != '\0' {
      ShortReadsBack(c, html);
    } else if LongEscape(c, html) {
      LongReadsBack(c, html);
    } else {
      assert [c][1..] == [];
    }
  }

  function Spellings(s: string, html: bool): seq<S.Spelling> {
    if s == "" then [] else [SpellingOf(s[0], html)] + Spellings(s[1..], html)
  }

  lemma {:induction false} EscapedIsSpelled(s: string, html: bool)
    ensures S.AllLegal(Spellings(s, html))
    ensures Codes(EscapeAll(s, html)) == S.SpellAll(Spellings(s, html))
    ensures S.DenoteEach(Spellings(s, html)) == Codes(s)
  {
    if s != "" {
      EscapeIsLegal(s[0], html);
      EscapedIsSpelled(s[1..], html);
      CodesJoin(Escape(s[0], html), EscapeAll(s[1..], html));
      var es := Spellings(s, html);
      assert es[1..] == Spellings(s[1..], html);
      assert S.DenoteEach(es) == [S.Denotes(es[0])] + S.DenoteEach(es[1..]);
    }
  }

  /** Reading what follows the opening quote of a quoted string gives the string and ends at its closing quote. */
  lemma QuotedTextReadsBack(f: S.IntBase16, s: string, html: bool, rest: S.Text)
    requires S.ReadsHex(f)
    ensures S.Decode(f, S.Fresh, Codes(EscapeAll(s, html)) + ([S.QUOTE] + rest))
        == (S.Decoder(false, None, true), Codes(s))
  {
    EscapedIsSpelled(s, html);
    S.DecodeBody(f, Spellings(s, html), rest);
  }
}

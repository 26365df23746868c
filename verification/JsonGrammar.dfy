/**
 * JSON texts as RFC 8259 describes them, without white space, and the serializer against them:
 * what it writes is the text of the value, members in key order, strings escaped as little as the
 * two encoders it uses allow.
 */
module JsonGrammar {
  import opened TextOrder
  import opened CanonicalJson
  import E = EscapeRoundTrip
  import S = SpokenExtractors

  // ---------------------------------------------------------------- the grammar

  /** A quoted sequence of characters and escapes, section 7, that denotes `s`. */
  ghost predicate IsStringText(t: string, s: string) {
    exists es: seq<S.Spelling> :: S.AllLegal(es) && S.DenoteEach(es) == E.Codes(s)
      && E.Codes(t) == [0x22] + S.SpellAll(es) + [0x22]
  }

  function AfterFirst(parts: seq<string>): string {
    if parts == [] then "" else "," + parts[0] + AfterFirst(parts[1..])
  }

  /** The parts with a comma between any two. */
  function Commas(parts: seq<string>): string {
    if parts == [] then "" else parts[0] + AfterFirst(parts[1..])
  }

  /** `t` is a text of `v`: sections 3 to 7, for numbers the numeral itself. */
  ghost predicate IsText(t: string, v: Json)
    decreases v
  {
    match v
    case Null => t == "null"
    case Bool(b) => if b then t == "true" else t == "false"
    case Number(numeral) => t == numeral
    case Str(s) => IsStringText(t, s)
    case Array(items) => exists parts :: AreTexts(parts, items) && t == "[" + Commas(parts) + "]"
    case Object(members) => exists parts :: AreMembers(parts, members) && t == "{" + Commas(parts) + "}"
  }

  ghost predicate AreTexts(parts: seq<string>, items: seq<Json>)
    decreases items
  {
    |parts| == |items| && (items == [] || (IsText(parts[0], items[0]) && AreTexts(parts[1..], items[1..])))
  }

  /** A key, a colon and a value. */
  ghost predicate AreMembers(parts: seq<string>, members: seq<Entry<Json>>)
    decreases members
  {
    && |parts| == |members|
    && (members == [] ||
         (&& (exists key, value :: parts[0] == key + ":" + value
                && IsStringText(key, members[0].key) && IsText(value, members[0].value))
          && AreMembers(parts[1..], members[1..])))
  }

  // ---------------------------------------------------------------- the serializer writes JSON

  lemma QuoteIsText(s: string, html: bool)
    ensures IsStringText(Quote(s, html), s)
  {
    E.EscapedIsSpelled(s, html);
    var body, es := EscapeAll(s, html), E.Spellings(s, html);
    E.CodesJoin("\"", body + "\"");
    E.CodesJoin(body, "\"");
    assert "\""[1..] == [] && E.Codes("\"") == [0x22];
    assert "\"" + (body + "\"") == Quote(s, html);
    assert [0x22] + (S.SpellAll(es) + [0x22]) == [0x22] + S.SpellAll(es) + [0x22];
  }

  lemma {:induction false} JoinIsCommas(parts: seq<string>)
    ensures Join(parts) == Commas(parts)
  {
    if |parts| > 1 {
      JoinIsCommas(parts[1..]);
      assert parts[0] + "," + (parts[1] + AfterFirst(parts[2..]))
        == parts[0] + ("," + parts[1] + AfterFirst(parts[2..]));
      assert parts[1..][0] == parts[1] && parts[1..][1..] == parts[2..];
    }
  }

  lemma {:induction false} PrintIsText(v: Json)
    ensures IsText(Print(v), v)
    decreases v
  {
    match v {
      case Str(s) => QuoteIsText(s, false);
      case Array(items) =>
        ItemsAreTexts(items);
        JoinIsCommas(PrintItems(items));
      case Object(members) =>
        MembersAreTexts(members);
        JoinIsCommas(MemberParts(PrintMembers(members)));
      case _ =>
    }
  }

  lemma {:induction false} ItemsAreTexts(items: seq<Json>)
    ensures AreTexts(PrintItems(items), items)
    decreases items
  {
    if items != [] {
      PrintIsText(items[0]);
      ItemsAreTexts(items[1..]);
      assert PrintItems(items)[1..] == PrintItems(items[1..]);
    }
  }

  lemma {:induction false} MembersAreTexts(members: seq<Entry<Json>>)
    ensures AreMembers(MemberParts(PrintMembers(members)), members)
    decreases members
  {
    if members != [] {
      var parts := MemberParts(PrintMembers(members));
      PrintIsText(members[0].value);
      QuoteIsText(members[0].key, true);
      MembersAreTexts(members[1..]);
      assert PrintMembers(members)[1..] == PrintMembers(members[1..]);
      assert parts[0] == Quote(members[0].key, true) + ":" + Print(members[0].value);
      assert parts[1..] == MemberParts(PrintMembers(members[1..]));
    }
  }

  /**
   * The canonical text is the JSON text of the value: of the same value, with the members of every
   * object in ascending order of key.
   */
  lemma CanonicalIsJson(j: Json)
    requires Valid(j)
    ensures IsText(Canonical(j), Normal(j)) && Denote(Normal(j)) == Denote(j) && IsNormal(Normal(j))
  {
    CanonicalPrintsNormal(j);
    PrintIsText(Normal(j));
    NormalMeansTheSame(j);
  }

  // ---------------------------------------------------------------- which characters are escaped

  /** Control characters, the quote, the backslash and the two line separators; for HTML also < > and &. */
  predicate MustEscape(c: char, html: bool) {
    || c as int < 0x20 || c == '\"' || c == '\\' || c as int == 0x2028 || c as int == 0x2029
    || (html && c in {'<', '>', '&'})
  }

  predicate IsLowerHex(c: char) {
    '0' <= c <= '9' || 'a' <= c <= 'f'
  }

  /** A character is escaped exactly when it must be, by a letter if there is one, else in lower-case digits. */
  lemma EscapesOnlyWhatItMust(c: char, html: bool)
    ensures !MustEscape(c, html) ==> Escape(c, html) == [c]
    ensures MustEscape(c, html) ==> Escape(c, html)[0] == '\\'
    ensures MustEscape(c, html) ==>
      if c in {'\"', '\\', '\n', '\r', '\t'} || c as int in {8, 12} then |Escape(c, html)| == 2
      else
        && |Escape(c, html)| == 6 && Escape(c, html)[1] == 'u'
        && forall k | 2 <= k < 6 :: IsLowerHex(Escape(c, html)[k])
  {
  }

  lemma {:induction false} HtmlIsGone(s: string)
    ensures forall c | c in EscapeAll(s, true) :: c !in {'<', '>', '&'}
  {
    if s != "" {
      HtmlIsGone(s[1..]);
      EscapesOnlyWhatItMust(s[0], true);
    }
  }

  lemma {:induction false} HtmlStays(s: string, c: char)
    requires c in {'<', '>', '&'} && c in s
    ensures c in EscapeAll(s, false)
  {
    EscapesOnlyWhatItMust(s[0], false);
    if s[0] == c {
      assert EscapeAll(s, false)[0] == c;
    } else {
      HtmlStays(s[1..], c);
    }
  }

  lemma OneMember(s: string)
    ensures Canonical(Object([Entry(s, Null)])) == "{" + (Quote(s, true) + ":" + "null") + "}"
  {
    var member := Entry(s, "null");
    assert [Entry(s, Null)][1..] == [] && [member][1..] == [];
    assert CanonicalMembers([Entry(s, Null)]) == [member];
    assert Sort([member]) == [member];
    assert MemberParts([member]) == [Quote(s, true) + ":" + "null"];
  }

  lemma InEither(c: char, a: string, b: string)
    ensures c in a + b <==> c in a || c in b
  {
  }

  /** The two encoders: keys are escaped for HTML, strings that are values are not. */
  lemma OnlyKeysAreEscapedForHtml(s: string, c: char)
    requires c in {'<', '>', '&'} && c in s
    ensures c in Canonical(Str(s)) && c !in Canonical(Object([Entry(s, Null)]))
  {
    HtmlStays(s, c);
    InEither(c, "\"" + EscapeAll(s, false), "\"");
    InEither(c, "\"", EscapeAll(s, false));
    HtmlIsGone(s);
    OneMember(s);
    InEither(c, "\"" + EscapeAll(s, true), "\"");
    InEither(c, "\"", EscapeAll(s, true));
    InEither(c, Quote(s, true) + ":", "null");
    InEither(c, Quote(s, true), ":");
    InEither(c, "{" + (Quote(s, true) + ":" + "null"), "}");
    InEither(c, "{", Quote(s, true) + ":" + "null");
  }
}

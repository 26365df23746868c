/**
 * The canonical JSON serializer behind artifact versions. A decoded Go value carries the order in
 * which the runtime happens to iterate its maps; what the value means does not.
 */
module CanonicalJson {
  import opened TextOrder

  /** A decoded value; the members of an object stand in map iteration order. */
  datatype Json =
    | Null
    | Bool(b: bool)
    | Number(numeral: string)
    | Str(s: string)
    | Array(items: seq<Json>)
    | Object(members: seq<Entry<Json>>)

  /** What the value is, with objects as finite maps. */
  datatype Value =
    | VNull
    | VBool(b: bool)
    | VNumber(numeral: string)
    | VStr(s: string)
    | VArray(items: seq<Value>)
    | VObject(members: map<string, Value>)

  predicate IsNumeralChar(c: char) {
    '0' <= c <= '9' || c == '-' || c == '+' || c == '.' || c == 'e' || c == 'E'
  }

  /** The text of a finite float64: it starts with a digit or a minus sign and holds only numeral characters. */
  ghost predicate IsNumeral(s: string) {
    s != "" && (s[0] == '-' || '0' <= s[0] <= '9') && forall i :: 0 <= i < |s| ==> IsNumeralChar(s[i])
  }

  ghost predicate Valid(j: Json) {
    match j
    case Number(numeral) => IsNumeral(numeral)
    case Array(items) => ValidItems(items)
    case Object(members) => DistinctKeys(members) && ValidMembers(members)
    case _ => true
  }

  ghost predicate ValidItems(items: seq<Json>) {
    items == [] || (Valid(items[0]) && ValidItems(items[1..]))
  }

  ghost predicate ValidMembers(members: seq<Entry<Json>>) {
    members == [] || (Valid(members[0].value) && ValidMembers(members[1..]))
  }

  function Denote(j: Json): Value {
    match j
    case Null => VNull
    case Bool(b) => VBool(b)
    case Number(numeral) => VNumber(numeral)
    case Str(s) => VStr(s)
    case Array(items) => VArray(DenoteItems(items))
    case Object(members) => VObject(DenoteMembers(members))
  }

  function DenoteItems(items: seq<Json>): seq<Value> {
    if items == [] then [] else [Denote(items[0])] + DenoteItems(items[1..])
  }

  function DenoteMembers(members: seq<Entry<Json>>): map<string, Value> {
    if members == [] then map[]
    else DenoteMembers(members[1..])[members[0].key := Denote(members[0].value)]
  }

  // ---------------------------------------------------------------- strings

  function HexDigit(n: nat): char
    requires n < 16
  {
    if n < 10 then '0' + n as char else 'a' + (n - 10) as char
  }

  function Hex4(n: nat): string
    requires n < 0x10000
  {
    [HexDigit(n / 0x1000), HexDigit(n / 0x100 % 16), HexDigit(n / 16 % 16), HexDigit(n % 16)]
  }

  /** The letter of a two-character escape; NUL when there is none. */
  function ShortEscape(c: char): char {
    if c == '\"' || c == '\\' then c
    else if c as int == 8 then 'b'
    else if c as int == 12 then 'f'
    else if c == '\n' then 'n'
    else if c == '\r' then 'r'
    else if c == '\t' then 't'
    else '\0'
  }

  predicate LongEscape(c: char, html: bool) {
    c as int < 0x20 || c as int == 0x2028 || c as int == 0x2029 || (html && (c == '<' || c == '>' || c == '&'))
  }

  function Escape(c: char, html: bool): (s: string)
    ensures s != "" && s[0] != '\"'
  {
    if ShortEscape(c) != '\0' then ['\\', ShortEscape(c)]
    else if LongEscape(c, html) then ['\\', 'u'] + Hex4(c as int)
    else [c]
  }

  function EscapeAll(s: string, html: bool): string {
    if s == "" then "" else Escape(s[0], html) + EscapeAll(s[1..], html)
  }

  /** `json.Marshal` escapes for HTML, an encoder with SetEscapeHTML(false) does not. */
  function Quote(s: string, html: bool): string {
    "\"" + EscapeAll(s, html) + "\""
  }

  // ---------------------------------------------------------------- the serializer

  function Join(parts: seq<string>): string {
    if parts == [] then ""
    else if |parts| == 1 then parts[0]
    else parts[0] + "," + Join(parts[1..])
  }

  /** `"key":value` for every entry. */
  function MemberParts(entries: seq<Entry<string>>): seq<string> {
    if entries == [] then [] else [Quote(entries[0].key, true) + ":" + entries[0].value] + MemberParts(entries[1..])
  }

  function Canonical(j: Json): string {
    match j
    case Null => "null"
    case Bool(b) => if b then "true" else "false"
    case Number(numeral) => numeral
    case Str(s) => Quote(s, false)
    case Array(items) => "[" + Join(CanonicalItems(items)) + "]"
    case Object(members) => "{" + Join(MemberParts(Sort(CanonicalMembers(members)))) + "}"
  }

  function CanonicalItems(items: seq<Json>): seq<string> {
    if items == [] then [] else [Canonical(items[0])] + CanonicalItems(items[1..])
  }

  function CanonicalMembers(members: seq<Entry<Json>>): seq<Entry<string>> {
    if members == [] then [] else [Entry(members[0].key, Canonical(members[0].value))] + CanonicalMembers(members[1..])
  }

  // ---------------------------------------------------------------- normal forms

  /** The same value with the members of every object in key order. */
  function Normal(j: Json): Json {
    match j
    case Array(items) => Array(NormalItems(items))
    case Object(members) => Object(Sort(NormalMembers(members)))
    case _ => j
  }

  function NormalItems(items: seq<Json>): seq<Json> {
    if items == [] then [] else [Normal(items[0])] + NormalItems(items[1..])
  }

  function NormalMembers(members: seq<Entry<Json>>): seq<Entry<Json>> {
    if members == [] then [] else [Entry(members[0].key, Normal(members[0].value))] + NormalMembers(members[1..])
  }

  /** The value written in the order its members stand in. */
  function Print(j: Json): string {
    match j
    case Null => "null"
    case Bool(b) => if b then "true" else "false"
    case Number(numeral) => numeral
    case Str(s) => Quote(s, false)
    case Array(items) => "[" + Join(PrintItems(items)) + "]"
    case Object(members) => "{" + Join(MemberParts(PrintMembers(members))) + "}"
  }

  function PrintItems(items: seq<Json>): seq<string> {
    if items == [] then [] else [Print(items[0])] + PrintItems(items[1..])
  }

  function PrintMembers(members: seq<Entry<Json>>): seq<Entry<string>> {
    if members == [] then [] else [Entry(members[0].key, Print(members[0].value))] + PrintMembers(members[1..])
  }

  lemma {:induction false} PrintInsert(e: Entry<Json>, members: seq<Entry<Json>>)
    ensures PrintMembers(Insert(e, members)) == Insert(Entry(e.key, Print(e.value)), PrintMembers(members))
  {
    if members == [] {
    } else if Le(e.key, members[0].key) {
      assert ([e] + members)[1..] == members;
    } else {
      PrintInsert(e, members[1..]);
      var rest := Insert(e, members[1..]);
      assert ([members[0]] + rest)[1..] == rest;
      assert PrintMembers(members)[1..] == PrintMembers(members[1..]);
    }
  }

  lemma {:induction false} PrintSort(members: seq<Entry<Json>>)
    ensures PrintMembers(Sort(members)) == Sort(PrintMembers(members))
  {
    if members != [] {
      PrintSort(members[1..]);
      PrintInsert(members[0], Sort(members[1..]));
      assert PrintMembers(members)[1..] == PrintMembers(members[1..]);
    }
  }

  /** Sorting encoded members is encoding sorted members: the serializer prints the normal form. */
  lemma {:induction false} CanonicalPrintsNormal(j: Json)
    ensures Canonical(j) == Print(Normal(j))
  {
    match j {
      case Array(items) => CanonicalItemsPrintNormal(items);
      case Object(members) =>
        CanonicalMembersPrintNormal(members);
        PrintSort(NormalMembers(members));
      case _ =>
    }
  }

  lemma {:induction false} CanonicalItemsPrintNormal(items: seq<Json>)
    ensures CanonicalItems(items) == PrintItems(NormalItems(items))
  {
    if items != [] {
      CanonicalPrintsNormal(items[0]);
      CanonicalItemsPrintNormal(items[1..]);
      assert NormalItems(items)[1..] == NormalItems(items[1..]);
    }
  }

  lemma {:induction false} CanonicalMembersPrintNormal(members: seq<Entry<Json>>)
    ensures CanonicalMembers(members) == PrintMembers(NormalMembers(members))
  {
    if members != [] {
      CanonicalPrintsNormal(members[0].value);
      CanonicalMembersPrintNormal(members[1..]);
      assert NormalMembers(members)[1..] == NormalMembers(members[1..]);
    }
  }

  // ---------------------------------------------------------------- normal forms mean the same

  lemma {:induction false} DenoteInsert(e: Entry<Json>, members: seq<Entry<Json>>)
    requires Avoids(e.key, members)
    ensures DenoteMembers(Insert(e, members)) == DenoteMembers(members)[e.key := Denote(e.value)]
  {
    if members == [] {
    } else if Le(e.key, members[0].key) {
      assert ([e] + members)[1..] == members;
    } else {
      DenoteInsert(e, members[1..]);
      assert ([members[0]] + Insert(e, members[1..]))[1..] == Insert(e, members[1..]);
    }
  }

  lemma {:induction false} DenoteSort(members: seq<Entry<Json>>)
    requires DistinctKeys(members)
    ensures DenoteMembers(Sort(members)) == DenoteMembers(members)
  {
    if members != [] {
      DenoteSort(members[1..]);
      SortBounds(members[0].key, members[1..]);
      DenoteInsert(members[0], Sort(members[1..]));
    }
  }

  ghost predicate IsNormal(j: Json) {
    match j
    case Array(items) => NormalAll(items)
    case Object(members) => Sorted(members) && DistinctKeys(members) && NormalValues(members)
    case Number(numeral) => IsNumeral(numeral)
    case _ => true
  }

  ghost predicate NormalAll(items: seq<Json>) {
    items == [] || (IsNormal(items[0]) && NormalAll(items[1..]))
  }

  ghost predicate NormalValues(members: seq<Entry<Json>>) {
    members == [] || (IsNormal(members[0].value) && NormalValues(members[1..]))
  }

  lemma {:induction false} NormalValuesInsert(e: Entry<Json>, members: seq<Entry<Json>>)
    requires IsNormal(e.value) && NormalValues(members)
    ensures NormalValues(Insert(e, members))
  {
    if members == [] {
      assert [e][1..] == [];
    } else if Le(e.key, members[0].key) {
      assert ([e] + members)[1..] == members;
    } else {
      NormalValuesInsert(e, members[1..]);
      assert ([members[0]] + Insert(e, members[1..]))[1..] == Insert(e, members[1..]);
    }
  }

  lemma {:induction false} NormalValuesSort(members: seq<Entry<Json>>)
    requires NormalValues(members)
    ensures NormalValues(Sort(members))
  {
    if members != [] {
      NormalValuesSort(members[1..]);
      NormalValuesInsert(members[0], Sort(members[1..]));
    }
  }

  lemma {:induction false} NormalMeansTheSame(j: Json)
    requires Valid(j)
    ensures Denote(Normal(j)) == Denote(j) && IsNormal(Normal(j))
  {
    match j {
      case Array(items) => NormalItemsMeanTheSame(items);
      case Object(members) =>
        NormalMembersMeanTheSame(members);
        DenoteSort(NormalMembers(members));
        SortSorts(NormalMembers(members));
        NormalValuesSort(NormalMembers(members));
      case _ =>
    }
  }

  lemma {:induction false} NormalItemsMeanTheSame(items: seq<Json>)
    requires ValidItems(items)
    ensures DenoteItems(NormalItems(items)) == DenoteItems(items) && NormalAll(NormalItems(items))
  {
    if items != [] {
      NormalMeansTheSame(items[0]);
      NormalItemsMeanTheSame(items[1..]);
      assert NormalItems(items)[1..] == NormalItems(items[1..]);
    }
  }

  lemma {:induction false} NormalMembersMeanTheSame(members: seq<Entry<Json>>)
    requires ValidMembers(members) && DistinctKeys(members)
    ensures
      var n := NormalMembers(members);
      && DenoteMembers(n) == DenoteMembers(members)
      && NormalValues(n) && DistinctKeys(n)
      && (forall key :: Avoids(key, members) ==> Avoids(key, n))
  {
    if members != [] {
      NormalMeansTheSame(members[0].value);
      NormalMembersMeanTheSame(members[1..]);
      var n := NormalMembers(members);
      assert n[1..] == NormalMembers(members[1..]);
      forall key | Avoids(key, members) ensures Avoids(key, n) {
        assert Avoids(key, members[1..]);
      }
    }
  }

  // ---------------------------------------------------------------- a normal form is determined by its meaning

  lemma {:induction false} KeysOfDenotation(members: seq<Entry<Json>>, key: string)
    ensures key !in DenoteMembers(members) <==> Avoids(key, members)
  {
    if members != [] {
      KeysOfDenotation(members[1..], key);
      assert Avoids(key, members) ==> members[0].key != key;
    }
  }

  lemma {:induction false} NormalDetermined(a: Json, b: Json)
    requires IsNormal(a) && IsNormal(b) && Denote(a) == Denote(b)
    ensures a == b
  {
    match a {
      case Array(items) => NormalItemsDetermined(items, b.items);
      case Object(members) => NormalMembersDetermined(members, b.members);
      case _ =>
    }
  }

  lemma {:induction false} NormalItemsDetermined(a: seq<Json>, b: seq<Json>)
    requires NormalAll(a) && NormalAll(b) && DenoteItems(a) == DenoteItems(b)
    ensures a == b
  {
    if a != [] {
      assert DenoteItems(a)[1..] == DenoteItems(a[1..]) && DenoteItems(b)[1..] == DenoteItems(b[1..]);
      assert DenoteItems(a)[0] == DenoteItems(b)[0];
      NormalDetermined(a[0], b[0]);
      NormalItemsDetermined(a[1..], b[1..]);
      assert a == [a[0]] + a[1..] && b == [b[0]] + b[1..];
    }
  }

  lemma SameFirstKey(a: seq<Entry<Json>>, b: seq<Entry<Json>>)
    requires Sorted(a) && Sorted(b) && DenoteMembers(a) == DenoteMembers(b)
    requires a != []
    ensures b != [] && a[0].key == b[0].key
  {
    assert a[0].key in DenoteMembers(a);
    assert b != [] && b[0].key in DenoteMembers(b);
    KeysOfDenotation(a, b[0].key);
    KeysOfDenotation(b, a[0].key);
    var i :| 0 <= i < |a| && a[i].key == b[0].key;
    var k :| 0 <= k < |b| && b[k].key == a[0].key;
    LeTotal(a[0].key, a[0].key);
    LeTotal(b[0].key, b[0].key);
    assert Le(a[0].key, a[i].key) by { if i > 0 { assert a[i] == a[1..][i - 1]; } }
    assert Le(b[0].key, b[k].key) by { if k > 0 { assert b[k] == b[1..][k - 1]; } }
    LeAntisymmetric(a[0].key, b[0].key);
  }

  lemma {:induction false} NormalMembersDetermined(a: seq<Entry<Json>>, b: seq<Entry<Json>>)
    requires Sorted(a) && DistinctKeys(a) && NormalValues(a)
    requires Sorted(b) && DistinctKeys(b) && NormalValues(b)
    requires DenoteMembers(a) == DenoteMembers(b)
    ensures a == b
  {
    assert b != [] ==> b[0].key in DenoteMembers(b);
    if a != [] {
      SameFirstKey(a, b);
      var key := a[0].key;
      assert DenoteMembers(a)[key] == DenoteMembers(b)[key];
      NormalDetermined(a[0].value, b[0].value);
      KeysOfDenotation(a[1..], key);
      KeysOfDenotation(b[1..], key);
      assert DenoteMembers(a[1..]) == DenoteMembers(a) - {key};
      assert DenoteMembers(b[1..]) == DenoteMembers(b) - {key};
      NormalMembersDetermined(a[1..], b[1..]);
      assert a == [a[0]] + a[1..] && b == [b[0]] + b[1..];
    }
  }

  // ---------------------------------------------------------------- reading back

  lemma Hex4Injective(m: nat, n: nat)
    requires m < 0x10000 && n < 0x10000 && Hex4(m) == Hex4(n)
    ensures m == n
  {
    assert Hex4(m)[0] == Hex4(n)[0] && Hex4(m)[1] == Hex4(n)[1] && Hex4(m)[2] == Hex4(n)[2] && Hex4(m)[3] == Hex4(n)[3];
    HexDigitInjective(m / 0x1000, n / 0x1000);
    HexDigitInjective(m / 0x100 % 16, n / 0x100 % 16);
    HexDigitInjective(m / 16 % 16, n / 16 % 16);
    HexDigitInjective(m % 16, n % 16);
    HexParts(m);
    HexParts(n);
  }

  lemma HexParts(n: nat)
    requires n < 0x10000
    ensures n == n / 0x1000 * 0x1000 + n / 0x100 % 16 * 0x100 + n / 16 % 16 * 16 + n % 16
  {
    assert n / 0x100 / 16 == n / 0x1000 && n / 16 / 16 == n / 0x100;
  }

  lemma HexDigitInjective(m: nat, n: nat)
    requires m < 16 && n < 16 && HexDigit(m) == HexDigit(n)
    ensures m == n
  {
    if m < 10 {
      assert '0' <= HexDigit(m) <= '9';
    } else {
      assert 'a' <= HexDigit(m) <= 'f';
    }
  }

  lemma HeadsAndTails(a: string, u: string, b: string, v: string)
    requires a + u == b + v && |a| == |b|
    ensures a == b && u == v
  {
    assert a == (a + u)[..|a|] && b == (b + v)[..|b|];
    assert u == (a + u)[|a|..] && v == (b + v)[|b|..];
  }

  lemma ShortEscapeInjective(c: char, d: char)
    requires ShortEscape(c) == ShortEscape(d) != '\0'
    ensures c == d
  {
  }

  lemma EscapeShape(c: char, html: bool, u: string)
    ensures
      var s := Escape(c, html);
      && |s| in {1, 2, 6}
      && (s + u)[0] == s[0]
      && (s[0] == '\\' <==> |s| != 1)
      && (|s| != 1 ==> (s + u)[1] == s[1] && (s[1] == 'u' <==> |s| == 6))
  {
  }

  /** The escape of a character can be told from what follows it. */
  lemma EscapeUnique(c: char, u: string, d: char, v: string, html: bool)
    requires Escape(c, html) + u == Escape(d, html) + v
    ensures c == d && u == v
  {
    var s, t := Escape(c, html), Escape(d, html);
    EscapeShape(c, html, u);
    EscapeShape(d, html, v);
    HeadsAndTails(s, u, t, v);
    if ShortEscape(c) != '\0' {
      assert s[1] == ShortEscape(c) && t[1] == ShortEscape(d);
      ShortEscapeInjective(c, d);
    } else if LongEscape(c, html) {
      assert s[2..] == Hex4(c as int) && t[2..] == Hex4(d as int);
      Hex4Injective(c as int, d as int);
    }
  }

  /** Escaped text, its closing quote and the rest. */
  function Tail(a: string, x: string, html: bool): string {
    EscapeAll(a, html) + ("\"" + x)
  }

  lemma TailSteps(a: string, x: string, html: bool)
    ensures Tail(a, x, html) != ""
    ensures a == "" ==> Tail(a, x, html)[0] == '\"' && Tail(a, x, html)[1..] == x
    ensures a != "" ==> Tail(a, x, html) == Escape(a[0], html) + Tail(a[1..], x, html)
    ensures a != "" ==> Tail(a, x, html)[0] != '\"'
  {
    if a == "" {
      assert Tail(a, x, html) == "\"" + x;
    } else {
      Associate(Escape(a[0], html), EscapeAll(a[1..], html), "\"" + x);
    }
  }

  lemma Associate(a: string, b: string, c: string)
    ensures a + b + c == a + (b + c)
  {
  }

  lemma {:induction false} TailUnique(a: string, x: string, b: string, y: string, html: bool)
    requires Tail(a, x, html) == Tail(b, y, html)
    ensures a == b && x == y
  {
    TailSteps(a, x, html);
    TailSteps(b, y, html);
    if a != "" {
      EscapeUnique(a[0], Tail(a[1..], x, html), b[0], Tail(b[1..], y, html), html);
      TailUnique(a[1..], x, b[1..], y, html);
      assert a == [a[0]] + a[1..] && b == [b[0]] + b[1..];
    }
  }

  lemma QuoteUnique(a: string, x: string, b: string, y: string, html: bool)
    requires Quote(a, html) + x == Quote(b, html) + y
    ensures a == b && x == y
  {
    UnquoteHead(EscapeAll(a, html), x);
    UnquoteHead(EscapeAll(b, html), y);
    TailUnique(a, x, b, y, html);
  }

  lemma UnquoteHead(s: string, x: string)
    ensures ("\"" + s + "\"" + x)[1..] == s + ("\"" + x)
  {
  }

  /** What can follow a value inside a larger one. */
  predicate Ends(x: string) {
    x == "" || x[0] == ',' || x[0] == ']' || x[0] == '}'
  }

  lemma NumeralExtent(m: string, x: string)
    requires IsNumeral(m) && Ends(x)
    ensures forall i :: 0 <= i < |m| ==> IsNumeralChar((m + x)[i])
    ensures |m + x| > |m| ==> !IsNumeralChar((m + x)[|m|])
  {
  }

  lemma NumeralUnique(m: string, x: string, n: string, y: string)
    requires IsNumeral(m) && IsNumeral(n) && Ends(x) && Ends(y) && m + x == n + y
    ensures m == n && x == y
  {
    NumeralExtent(m, x);
    NumeralExtent(n, y);
    HeadsAndTails(m, x, n, y);
  }

  // ---------------------------------------------------------------- lists

  /** A bracketed list after its opening bracket: the elements, the closing bracket and the rest. */
  function ItemsTail(items: seq<Json>, x: string): string {
    Join(PrintItems(items)) + ("]" + x)
  }

  function MembersTail(members: seq<Entry<Json>>, x: string): string {
    Join(MemberParts(PrintMembers(members))) + ("}" + x)
  }

  /** What follows an element: nothing more, or a comma and the remaining elements. */
  function AfterItem(rest: seq<Json>, x: string): string {
    if rest == [] then "]" + x else "," + ItemsTail(rest, x)
  }

  function AfterMember(rest: seq<Entry<Json>>, x: string): string {
    if rest == [] then "}" + x else "," + MembersTail(rest, x)
  }

  lemma ItemsTailSteps(items: seq<Json>, x: string)
    ensures items == [] ==> ItemsTail(items, x) == "]" + x
    ensures items != [] ==> ItemsTail(items, x) == Print(items[0]) + AfterItem(items[1..], x)
  {
    if items != [] {
      var parts := PrintItems(items);
      assert parts[0] == Print(items[0]) && parts[1..] == PrintItems(items[1..]);
      if items[1..] == [] {
        assert Join(parts) == parts[0];
      } else {
        assert |parts| > 1;
        Associate(parts[0], ",", Join(parts[1..]));
        Associate(parts[0], "," + Join(parts[1..]), "]" + x);
        Associate(",", Join(parts[1..]), "]" + x);
      }
    }
  }

  /** A member without its key and colon, then the rest. */
  lemma MembersTailSteps(members: seq<Entry<Json>>, x: string)
    ensures members == [] ==> MembersTail(members, x) == "}" + x
    ensures members != [] ==>
      MembersTail(members, x)
      == Quote(members[0].key, true) + (":" + (Print(members[0].value) + AfterMember(members[1..], x)))
  {
    if members != [] {
      var parts := MemberParts(PrintMembers(members));
      var key, value := Quote(members[0].key, true), Print(members[0].value);
      assert PrintMembers(members)[0] == Entry(members[0].key, value);
      assert PrintMembers(members)[1..] == PrintMembers(members[1..]);
      assert parts[0] == key + ":" + value && parts[1..] == MemberParts(PrintMembers(members[1..]));
      if members[1..] == [] {
        assert Join(parts) == parts[0];
        MemberShape(key, value, "}" + x);
      } else {
        assert |parts| > 1;
        Associate(parts[0], ",", Join(parts[1..]));
        Associate(parts[0], "," + Join(parts[1..]), "}" + x);
        Associate(",", Join(parts[1..]), "}" + x);
        MemberShape(key, value, "," + MembersTail(members[1..], x));
      }
    }
  }

  lemma MemberShape(key: string, value: string, rest: string)
    ensures key + ":" + value + rest == key + (":" + (value + rest))
  {
  }

  // ---------------------------------------------------------------- the text determines the value

  /** The first character of a printed value says which kind of value it is. */
  lemma FirstCharacter(j: Json, x: string)
    requires IsNormal(j)
    ensures Print(j) != "" && (Print(j) + x)[0] == Print(j)[0]
    ensures
      var c := Print(j)[0];
      match j
      case Null => c == 'n'
      case Bool(b) => if b then c == 't' else c == 'f'
      case Number(_) => c == '-' || '0' <= c <= '9'
      case Str(_) => c == '\"'
      case Array(_) => c == '['
      case Object(_) => c == '{'
  {
  }

  lemma SameKind(a: Json, x: string, b: Json, y: string)
    requires IsNormal(a) && IsNormal(b) && Print(a) + x == Print(b) + y
    ensures a.Null? == b.Null? && a.Bool? == b.Bool? && a.Number? == b.Number?
    ensures a.Str? == b.Str? && a.Array? == b.Array? && a.Object? == b.Object?
    ensures a.Bool? ==> a == b
  {
    FirstCharacter(a, x);
    FirstCharacter(b, y);
  }

  lemma Unbracket(open: string, s: string, close: string, x: string)
    requires |open| == 1
    ensures (open + s + close + x)[1..] == s + (close + x)
  {
  }

  /** A printed normal value can be told from what follows it. */
  lemma {:induction false} PrintUnique(a: Json, x: string, b: Json, y: string)
    requires IsNormal(a) && IsNormal(b) && Ends(x) && Ends(y)
    requires Print(a) + x == Print(b) + y
    ensures a == b && x == y
    decreases a
  {
    SameKind(a, x, b, y);
    match a {
      case Number(m) => NumeralUnique(m, x, b.numeral, y);
      case Str(s) => QuoteUnique(s, x, b.s, y, false);
      case Array(items) =>
        Unbracket("[", Join(PrintItems(items)), "]", x);
        Unbracket("[", Join(PrintItems(b.items)), "]", y);
        ItemsUnique(items, x, b.items, y);
      case Object(members) =>
        Unbracket("{", Join(MemberParts(PrintMembers(members))), "}", x);
        Unbracket("{", Join(MemberParts(PrintMembers(b.members))), "}", y);
        MembersUnique(members, x, b.members, y);
      case _ => HeadsAndTails(Print(a), x, Print(b), y);
    }
  }

  lemma {:induction false} ItemsUnique(a: seq<Json>, x: string, b: seq<Json>, y: string)
    requires NormalAll(a) && NormalAll(b)
    requires ItemsTail(a, x) == ItemsTail(b, y)
    ensures a == b && x == y
    decreases a
  {
    ItemsTailSteps(a, x);
    ItemsTailSteps(b, y);
    if a != [] {
      FirstCharacter(a[0], AfterItem(a[1..], x));
    }
    if b != [] {
      FirstCharacter(b[0], AfterItem(b[1..], y));
    }
    if a == [] {
      assert x == ItemsTail(a, x)[1..];
    } else {
      PrintUnique(a[0], AfterItem(a[1..], x), b[0], AfterItem(b[1..], y));
      AfterItemUnique(a[1..], x, b[1..], y);
      if a[1..] == [] {
        assert a == [a[0]] && b == [b[0]];
      } else {
        ItemsUnique(a[1..], x, b[1..], y);
        assert a == [a[0]] + a[1..] && b == [b[0]] + b[1..];
      }
    }
  }

  lemma AfterItemUnique(a: seq<Json>, x: string, b: seq<Json>, y: string)
    requires AfterItem(a, x) == AfterItem(b, y)
    ensures a == [] <==> b == []
    ensures a == [] ==> x == y
    ensures a != [] ==> ItemsTail(a, x) == ItemsTail(b, y)
  {
    var s, t := AfterItem(a, x), AfterItem(b, y);
    assert s[0] == t[0] && s[1..] == t[1..];
    assert a == [] ==> s[1..] == x;
    assert b == [] ==> t[1..] == y;
    assert a != [] ==> s[1..] == ItemsTail(a, x);
    assert b != [] ==> t[1..] == ItemsTail(b, y);
  }

  lemma MembersTailHead(members: seq<Entry<Json>>, x: string)
    ensures MembersTail(members, x) != ""
    ensures MembersTail(members, x)[0] == if members == [] then '}' else '\"'
    ensures members == [] ==> MembersTail(members, x)[1..] == x
  {
    MembersTailSteps(members, x);
  }

  /** The first key and its value can be told from the members after them. */
  lemma FirstMemberUnique(a: seq<Entry<Json>>, x: string, b: seq<Entry<Json>>, y: string)
    requires a != [] && MembersTail(a, x) == MembersTail(b, y)
    ensures b != [] && a[0].key == b[0].key
    ensures Print(a[0].value) + AfterMember(a[1..], x) == Print(b[0].value) + AfterMember(b[1..], y)
  {
    MembersTailHead(a, x);
    MembersTailHead(b, y);
    MembersTailSteps(a, x);
    MembersTailSteps(b, y);
    var u, v := Print(a[0].value) + AfterMember(a[1..], x), Print(b[0].value) + AfterMember(b[1..], y);
    QuoteUnique(a[0].key, ":" + u, b[0].key, ":" + v, true);
    HeadsAndTails(":", u, ":", v);
  }

  lemma NoMembersUnique(x: string, b: seq<Entry<Json>>, y: string)
    requires MembersTail([], x) == MembersTail(b, y)
    ensures b == [] && x == y
  {
    MembersTailHead([], x);
    MembersTailHead(b, y);
  }

  lemma {:induction false} MembersUnique(a: seq<Entry<Json>>, x: string, b: seq<Entry<Json>>, y: string)
    requires NormalValues(a) && NormalValues(b)
    requires MembersTail(a, x) == MembersTail(b, y)
    ensures a == b && x == y
    decreases a
  {
    if a == [] {
      NoMembersUnique(x, b, y);
    } else {
      FirstMemberUnique(a, x, b, y);
      PrintUnique(a[0].value, AfterMember(a[1..], x), b[0].value, AfterMember(b[1..], y));
      AfterMemberUnique(a[1..], x, b[1..], y);
      if a[1..] == [] {
        assert a == [a[0]] && b == [b[0]];
      } else {
        MembersUnique(a[1..], x, b[1..], y);
        assert a == [a[0]] + a[1..] && b == [b[0]] + b[1..];
      }
    }
  }

  lemma AfterMemberUnique(a: seq<Entry<Json>>, x: string, b: seq<Entry<Json>>, y: string)
    requires AfterMember(a, x) == AfterMember(b, y)
    ensures a == [] <==> b == []
    ensures a == [] ==> x == y
    ensures a != [] ==> MembersTail(a, x) == MembersTail(b, y)
  {
    var s, t := AfterMember(a, x), AfterMember(b, y);
    assert s[0] == t[0] && s[1..] == t[1..];
    assert a == [] ==> s[1..] == x;
    assert b == [] ==> t[1..] == y;
    assert a != [] ==> s[1..] == MembersTail(a, x);
    assert b != [] ==> t[1..] == MembersTail(b, y);
  }

  /**
   * The serializer is canonical: two decoded values get the same text exactly when they mean the
   * same, in whatever order their objects are iterated.
   */
  lemma CanonicalIffSameMeaning(a: Json, b: Json)
    requires Valid(a) && Valid(b)
    ensures Canonical(a) == Canonical(b) <==> Denote(a) == Denote(b)
  {
    CanonicalPrintsNormal(a);
    CanonicalPrintsNormal(b);
    NormalMeansTheSame(a);
    NormalMeansTheSame(b);
    if Canonical(a) == Canonical(b) {
      PrintUnique(Normal(a), "", Normal(b), "");
    }
    if Denote(a) == Denote(b) {
      NormalDetermined(Normal(a), Normal(b));
    }
  }
}

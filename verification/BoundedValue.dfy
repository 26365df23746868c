/**
 * The bounds put on a JSON value before it is shown: depth, string, list and object sizes, numbers.
 */
module BoundedValues {
  import opened Collections

  const MAX_DEPTH: nat := 5
  const MAX_LABEL_LENGTH: nat := 240
  const MAX_ITEMS: nat := 128
  const MAX_MEMBERS: nat := 32
  const MAX_KEY: nat := 80
  const MAX_NUMBER: real := 10_000.0

  /** A Python value; the members of a dict stand in insertion order, under distinct keys. */
  datatype Value =
    | Null
    | Boolean(b: bool)
    | Text(s: string)
    | Number(n: real)
    | NotFinite
    | List(items: seq<Value>)
    | Dict(members: seq<Member>)
    | OtherObject

  datatype Member = Member(key: string, value: Value)

  function Clamp(n: real): real {
    if n > MAX_NUMBER then MAX_NUMBER else if n < -MAX_NUMBER then -MAX_NUMBER else n
  }

  predicate IsDunder(key: string) {
    |key| >= 2 && key[0] == '_' && key[1] == '_'
  }

  /** `bounded[key] = value`: an existing key keeps its place. */
  function Put(members: seq<Member>, key: string, value: Value): seq<Member> {
    if members == [] then [Member(key, value)]
    else if members[0].key == key then [Member(key, value)] + members[1..]
    else [members[0]] + Put(members[1..], key, value)
  }

  /** None is both "dropped" and Python's None, which containers drop. */
  function Bounded(v: Value, depth: nat): Option<Value> {
    if depth > MAX_DEPTH then None
    else
      match v
      case Null => None
      case Boolean(_) => Some(v)
      case Text(s) => Some(Text(Prefix(s, MAX_LABEL_LENGTH)))
      case Number(n) => Some(Number(Clamp(n)))
      case NotFinite => None
      case List(items) => Some(List(BoundedItems(items, MAX_ITEMS, depth)))
      case Dict(members) => Some(Dict(BoundedMembers(members, MAX_MEMBERS, [], depth)))
      case OtherObject => None
  }

  /** The first `n` items, bounded one level deeper, without those that are dropped. */
  function BoundedItems(items: seq<Value>, n: nat, depth: nat): seq<Value> {
    if items == [] || n == 0 then []
    else
      var item := Bounded(items[0], depth + 1);
      (if item.Some? then [item.value] else []) + BoundedItems(items[1..], n - 1, depth)
  }

  /** The first `n` members, put into `bounded` under their shortened keys. */
  function BoundedMembers(members: seq<Member>, n: nat, bounded: seq<Member>, depth: nat): seq<Member> {
    if members == [] || n == 0 then bounded
    else
      var item := Bounded(members[0].value, depth + 1);
      BoundedMembers(members[1..], n - 1,
                     if IsDunder(members[0].key) || item.None? then bounded
                     else Put(bounded, Prefix(members[0].key, MAX_KEY), item.value),
                     depth)
  }

  // ---------------------------------------------------------------- what is within bounds

  predicate Within(v: Value, depth: nat) {
    depth <= MAX_DEPTH &&
    match v
    case Boolean(_) => true
    case Text(s) => |s| <= MAX_LABEL_LENGTH
    case Number(n) => -MAX_NUMBER <= n <= MAX_NUMBER
    case List(items) => |items| <= MAX_ITEMS && ItemsWithin(items, depth)
    case Dict(members) => |members| <= MAX_MEMBERS && Distinct(members) && MembersWithin(members, depth)
    case _ => false
  }

  predicate ItemsWithin(items: seq<Value>, depth: nat) {
    forall i | 0 <= i < |items| :: Within(items[i], depth + 1)
  }

  predicate MembersWithin(members: seq<Member>, depth: nat) {
    forall i | 0 <= i < |members| ::
      Within(members[i].value, depth + 1) && |members[i].key| <= MAX_KEY && !IsDunder(members[i].key)
  }

  predicate Distinct(members: seq<Member>) {
    forall i, j | 0 <= i < j < |members| :: members[i].key != members[j].key
  }

  predicate Lacks(members: seq<Member>, key: string) {
    forall i | 0 <= i < |members| :: members[i].key != key
  }

  // ---------------------------------------------------------------- the result is within bounds

  lemma {:induction false} PutStaysWithin(members: seq<Member>, key: string, value: Value, depth: nat)
    requires MembersWithin(members, depth) && Distinct(members)
    requires Within(value, depth + 1) && |key| <= MAX_KEY && !IsDunder(key)
    ensures MembersWithin(Put(members, key, value), depth) && Distinct(Put(members, key, value))
    ensures |Put(members, key, value)| <= |members| + 1
    ensures forall other | other != key && Lacks(members, other) :: Lacks(Put(members, key, value), other)
  {
    if members != [] && members[0].key != key {
      PutStaysWithin(members[1..], key, value, depth);
      assert Lacks(members[1..], members[0].key);
      assert Lacks(Put(members[1..], key, value), members[0].key);
      forall other | other != key && Lacks(members, other) ensures Lacks(Put(members, key, value), other) {
        assert Lacks(members[1..], other);
      }
    }
  }

  lemma {:induction false} BoundedStaysWithin(v: Value, depth: nat)
    requires Bounded(v, depth).Some?
    ensures Within(Bounded(v, depth).value, depth)
    decreases v
  {
    match v {
      case List(items) => ItemsStayWithin(items, MAX_ITEMS, depth);
      case Dict(members) => MembersStayWithin(members, MAX_MEMBERS, [], depth);
      case _ =>
    }
  }

  lemma {:induction false} ItemsStayWithin(items: seq<Value>, n: nat, depth: nat)
    ensures ItemsWithin(BoundedItems(items, n, depth), depth) && |BoundedItems(items, n, depth)| <= n
    decreases items
  {
    if items != [] && n > 0 {
      if Bounded(items[0], depth + 1).Some? {
        BoundedStaysWithin(items[0], depth + 1);
      }
      ItemsStayWithin(items[1..], n - 1, depth);
    }
  }

  lemma {:induction false} MembersStayWithin(members: seq<Member>, n: nat, bounded: seq<Member>, depth: nat)
    requires MembersWithin(bounded, depth) && Distinct(bounded)
    ensures
      var r := BoundedMembers(members, n, bounded, depth);
      MembersWithin(r, depth) && Distinct(r) && |r| <= |bounded| + n
    decreases members
  {
    if members != [] && n > 0 {
      var item := Bounded(members[0].value, depth + 1);
      var key := Prefix(members[0].key, MAX_KEY);
      var next := bounded;
      if !IsDunder(members[0].key) && item.Some? {
        BoundedStaysWithin(members[0].value, depth + 1);
        PutStaysWithin(bounded, key, item.value, depth);
        next := Put(bounded, key, item.value);
      }
      MembersStayWithin(members[1..], n - 1, next, depth);
    }
  }

  // ---------------------------------------------------------------- what is within bounds is left alone

  lemma {:induction false} WithinIsFixed(v: Value, depth: nat)
    requires Within(v, depth)
    ensures Bounded(v, depth) == Some(v)
    decreases v
  {
    match v {
      case List(items) => ItemsAreFixed(items, MAX_ITEMS, depth);
      case Dict(members) =>
        MembersAreFixed(members, MAX_MEMBERS, [], depth);
        assert [] + members == members;
      case _ =>
    }
  }

  lemma {:induction false} ItemsAreFixed(items: seq<Value>, n: nat, depth: nat)
    requires ItemsWithin(items, depth) && |items| <= n
    ensures BoundedItems(items, n, depth) == items
    decreases items
  {
    if items != [] {
      WithinIsFixed(items[0], depth + 1);
      ItemsAreFixed(items[1..], n - 1, depth);
      assert items == [items[0]] + items[1..];
    }
  }

  lemma {:induction false} PutNew(members: seq<Member>, key: string, value: Value)
    requires Lacks(members, key)
    ensures Put(members, key, value) == members + [Member(key, value)]
  {
    if members != [] {
      assert Lacks(members[1..], key);
      PutNew(members[1..], key, value);
      assert members == [members[0]] + members[1..];
    }
  }

  lemma {:induction false} MembersAreFixed(members: seq<Member>, n: nat, bounded: seq<Member>, depth: nat)
    requires MembersWithin(members, depth) && Distinct(bounded + members) && |members| <= n
    ensures BoundedMembers(members, n, bounded, depth) == bounded + members
    decreases members
  {
    if members == [] {
      assert bounded + [] == bounded;
    } else {
      var key, value := members[0].key, members[0].value;
      WithinIsFixed(value, depth + 1);
      forall i | 0 <= i < |bounded| ensures bounded[i].key != key {
        assert (bounded + members)[i] == bounded[i] && (bounded + members)[|bounded|] == members[0];
      }
      PutNew(bounded, key, value);
      assert members[0] == Member(key, value);
      assert bounded + members == (bounded + [members[0]]) + members[1..];
      MembersAreFixed(members[1..], n - 1, bounded + [members[0]], depth);
    }
  }

  /**
   * Bounding is a projection onto the values within bounds: it leaves exactly those alone, and a second
   * pass changes nothing.
   */
  lemma BoundingProjects(v: Value, depth: nat)
    ensures Bounded(v, depth) == Some(v) <==> Within(v, depth)
    ensures Bounded(v, depth).Some? ==> Bounded(Bounded(v, depth).value, depth) == Bounded(v, depth)
  {
    if Bounded(v, depth).Some? {
      BoundedStaysWithin(v, depth);
      WithinIsFixed(Bounded(v, depth).value, depth);
    }
    if Within(v, depth) {
      WithinIsFixed(v, depth);
    }
  }

  // ---------------------------------------------------------------- what is kept, and what becomes of it

  /** What leaves no trace in a container: too deep, None, not a number, or of another kind. */
  predicate Drops(v: Value, depth: nat) {
    depth > 5 || v.Null? || v.NotFinite? || v.OtherObject?
  }

  function Distance(a: real, b: real): real {
    if a < b then b - a else a - b
  }

  /** The number within 10000 of zero that is closest to `n`. */
  ghost predicate IsNearest(n: real, m: real) {
    -10_000.0 <= m <= 10_000.0 && forall x: real | -10_000.0 <= x <= 10_000.0 :: Distance(n, m) <= Distance(n, x)
  }

  /** One of the first `n` items that is kept one level down. */
  predicate IsPlace(items: seq<Value>, n: nat, depth: nat, i: nat) {
    i < n && i < |items| && !Drops(items[i], depth + 1)
  }

  /** The places of the items that are kept, in order. */
  ghost predicate ArePlaces(items: seq<Value>, n: nat, depth: nat, places: seq<nat>) {
    && (forall j | 0 <= j < |places| :: IsPlace(items, n, depth, places[j]))
    && (forall j, k | 0 <= j < k < |places| :: places[j] < places[k])
    && (forall i: nat | IsPlace(items, n, depth, i) :: i in places)
  }

  /** `kept` holds the items at these places, each bounded one level down. */
  ghost predicate HoldsItems(items: seq<Value>, kept: seq<Value>, depth: nat, places: seq<nat>) {
    && |kept| == |places|
    && forall j | 0 <= j < |places| && places[j] < |items| :: Bounded(items[places[j]], depth + 1) == Some(kept[j])
  }

  function Further(places: seq<nat>): (r: seq<nat>)
    ensures |r| == |places| && forall j | 0 <= j < |r| :: r[j] == places[j] + 1
  {
    seq(|places|, j requires 0 <= j < |places| => places[j] + 1)
  }

  lemma NextPlace(items: seq<Value>, n: nat, depth: nat, i: nat)
    requires items != [] && n > 0
    ensures IsPlace(items, n, depth, i + 1) <==> IsPlace(items[1..], n - 1, depth, i)
  {
  }

  lemma FurtherArePlaces(items: seq<Value>, n: nat, depth: nat, rest: seq<nat>)
    requires items != [] && n > 0 && ArePlaces(items[1..], n - 1, depth, rest)
    ensures forall j | 0 <= j < |rest| :: IsPlace(items, n, depth, Further(rest)[j])
    ensures forall j, k | 0 <= j < k < |rest| :: Further(rest)[j] < Further(rest)[k]
  {
    forall j | 0 <= j < |rest| ensures IsPlace(items, n, depth, Further(rest)[j]) {
      NextPlace(items, n, depth, rest[j]);
    }
  }

  lemma FurtherCover(items: seq<Value>, n: nat, depth: nat, rest: seq<nat>, i: nat)
    requires items != [] && n > 0 && ArePlaces(items[1..], n - 1, depth, rest)
    requires i > 0 && IsPlace(items, n, depth, i)
    ensures i in Further(rest)
  {
    NextPlace(items, n, depth, i - 1);
    var j :| 0 <= j < |rest| && rest[j] == i - 1;
    assert Further(rest)[j] == i;
  }

  lemma FurtherPlaces(items: seq<Value>, n: nat, depth: nat, rest: seq<nat>, places: seq<nat>)
    requires items != [] && n > 0 && ArePlaces(items[1..], n - 1, depth, rest)
    requires places == (if IsPlace(items, n, depth, 0) then [0] + Further(rest) else Further(rest))
    ensures ArePlaces(items, n, depth, places)
  {
    FurtherArePlaces(items, n, depth, rest);
    forall i: nat | IsPlace(items, n, depth, i) ensures i in places {
      if i > 0 {
        FurtherCover(items, n, depth, rest, i);
      }
    }
  }

  lemma HoldsFurther(items: seq<Value>, kept: seq<Value>, depth: nat, rest: seq<nat>)
    requires items != [] && HoldsItems(items[1..], kept, depth, rest)
    ensures HoldsItems(items, kept, depth, Further(rest))
  {
    forall j | 0 <= j < |rest| && rest[j] + 1 < |items|
      ensures Bounded(items[Further(rest)[j]], depth + 1) == Some(kept[j])
    {
      assert items[rest[j] + 1] == items[1..][rest[j]];
    }
  }

  lemma HoldsOneMore(items: seq<Value>, kept: seq<Value>, depth: nat, places: seq<nat>, item: Value)
    requires items != [] && HoldsItems(items, kept, depth, places) && Bounded(items[0], depth + 1) == Some(item)
    ensures HoldsItems(items, [item] + kept, depth, [0] + places)
  {
  }

  lemma BoundedItemsStep(items: seq<Value>, n: nat, depth: nat)
    requires items != [] && n > 0
    ensures
      var kept := BoundedItems(items[1..], n - 1, depth);
      if IsPlace(items, n, depth, 0) then
        Bounded(items[0], depth + 1).Some?
        && BoundedItems(items, n, depth) == [Bounded(items[0], depth + 1).value] + kept
      else BoundedItems(items, n, depth) == kept
  {
    DropsIffNone(items[0], depth + 1);
  }

  lemma {:induction false} ItemsKept(items: seq<Value>, n: nat, depth: nat) returns (places: seq<nat>)
    ensures ArePlaces(items, n, depth, places) && HoldsItems(items, BoundedItems(items, n, depth), depth, places)
    decreases |items|
  {
    if items == [] || n == 0 {
      return [];
    }
    var rest := ItemsKept(items[1..], n - 1, depth);
    var kept := BoundedItems(items[1..], n - 1, depth);
    HoldsFurther(items, kept, depth, rest);
    BoundedItemsStep(items, n, depth);
    if IsPlace(items, n, depth, 0) {
      HoldsOneMore(items, kept, depth, Further(rest), Bounded(items[0], depth + 1).value);
      places := [0] + Further(rest);
    } else {
      places := Further(rest);
    }
    FurtherPlaces(items, n, depth, rest, places);
  }

  lemma DropsIffNone(v: Value, depth: nat)
    ensures Bounded(v, depth).None? <==> Drops(v, depth)
  {
  }

  /** A member that is kept under `key`: no double underscore in front, and a value that is kept. */
  predicate Lands(m: Member, depth: nat, key: string) {
    !("__" <= m.key) && !Drops(m.value, depth + 1) && Prefix(m.key, 80) == key
  }

  ghost predicate HasMember(members: seq<Member>, key: string, value: Value) {
    exists j :: 0 <= j < |members| && members[j] == Member(key, value)
  }

  /** A known key keeps its place and takes the new value, a new one goes to the end; nothing else changes. */
  lemma {:induction false} PutPlaces(members: seq<Member>, key: string, value: Value)
    requires Distinct(members)
    ensures Lacks(members, key) ==> Put(members, key, value) == members + [Member(key, value)]
    ensures forall i | 0 <= i < |members| && members[i].key == key ::
      Put(members, key, value) == members[i := Member(key, value)]
  {
    if members != [] {
      PutPlaces(members[1..], key, value);
      if Lacks(members, key) {
        PutNew(members, key, value);
      }
      forall i | 0 <= i < |members| && members[i].key == key
        ensures Put(members, key, value) == members[i := Member(key, value)]
      {
        if i > 0 {
          assert members[1..][i - 1] == members[i];
          assert [members[0]] + members[1..][i - 1 := Member(key, value)] == members[i := Member(key, value)];
        }
      }
    }
  }

  lemma {:induction false} PutHas(members: seq<Member>, key: string, value: Value, other: string, held: Value)
    ensures HasMember(Put(members, key, value), key, value)
    ensures other != key && HasMember(members, other, held) ==> HasMember(Put(members, key, value), other, held)
    ensures other != key && Lacks(members, other) ==> Lacks(Put(members, key, value), other)
  {
    var r := Put(members, key, value);
    if members == [] || members[0].key == key {
      assert r[0] == Member(key, value);
      if other != key && HasMember(members, other, held) {
        var j :| 0 <= j < |members| && members[j] == Member(other, held);
        assert r[j] == members[j];
      }
    } else {
      PutHas(members[1..], key, value, other, held);
      var rest := Put(members[1..], key, value);
      var k :| 0 <= k < |rest| && rest[k] == Member(key, value);
      assert r[k + 1] == rest[k];
      if other != key && HasMember(members, other, held) {
        var j :| 0 <= j < |members| && members[j] == Member(other, held);
        if j == 0 {
          assert r[0] == members[0];
        } else {
          assert members[1..][j - 1] == members[j];
          var m :| 0 <= m < |rest| && rest[m] == Member(other, held);
          assert r[m + 1] == rest[m];
        }
      }
      if other != key && Lacks(members, other) {
        assert Lacks(members[1..], other);
      }
    }
  }

  ghost predicate NoneLands(members: seq<Member>, from: nat, n: nat, depth: nat, key: string) {
    forall k: nat | from <= k < n && k < |members| :: !Lands(members[k], depth, key)
  }

  lemma NoneLandsFurther(members: seq<Member>, from: nat, n: nat, depth: nat, key: string)
    requires members != [] && from > 0 && n > 0 && NoneLands(members, from, n, depth, key)
    ensures NoneLands(members[1..], from - 1, n - 1, depth, key)
  {
    forall k: nat | from - 1 <= k < n - 1 && k < |members[1..]| ensures !Lands(members[1..][k], depth, key) {
      assert members[1..][k] == members[k + 1];
    }
  }

  /** What the loop has after one member. */
  function PutNext(m: Member, bounded: seq<Member>, depth: nat): seq<Member> {
    var item := Bounded(m.value, depth + 1);
    if IsDunder(m.key) || item.None? then bounded else Put(bounded, Prefix(m.key, MAX_KEY), item.value)
  }

  /** A member that does not land under a key leaves what is there alone; one that does puts its value there. */
  lemma PutNextMeans(m: Member, bounded: seq<Member>, depth: nat, key: string, value: Value)
    ensures !Lands(m, depth, key) ==>
      && (HasMember(bounded, key, value) ==> HasMember(PutNext(m, bounded, depth), key, value))
      && (Lacks(bounded, key) ==> Lacks(PutNext(m, bounded, depth), key))
    ensures Lands(m, depth, key) ==>
      && Bounded(m.value, depth + 1).Some?
      && HasMember(PutNext(m, bounded, depth), key, Bounded(m.value, depth + 1).value)
  {
    DropsIffNone(m.value, depth + 1);
    if !IsDunder(m.key) && Bounded(m.value, depth + 1).Some? {
      PutHas(bounded, Prefix(m.key, MAX_KEY), Bounded(m.value, depth + 1).value, key, value);
    }
  }

  /** A key under which nothing lands stays as it is. */
  lemma {:induction false} KeyStays(members: seq<Member>, n: nat, bounded: seq<Member>, depth: nat, key: string,
                                    value: Value)
    requires NoneLands(members, 0, n, depth, key)
    ensures HasMember(bounded, key, value) ==> HasMember(BoundedMembers(members, n, bounded, depth), key, value)
    ensures Lacks(bounded, key) ==> Lacks(BoundedMembers(members, n, bounded, depth), key)
    decreases |members|
  {
    if members != [] && n > 0 {
      PutNextMeans(members[0], bounded, depth, key, value);
      NoneLandsFurther(members, 1, n, depth, key);
      KeyStays(members[1..], n - 1, PutNext(members[0], bounded, depth), depth, key, value);
    }
  }

  /** The value under a key is that of the last member that lands there. */
  lemma {:induction false} LastMemberWins(members: seq<Member>, n: nat, bounded: seq<Member>, depth: nat, key: string,
                                          i: nat)
    requires i < n && i < |members| && Lands(members[i], depth, key) && NoneLands(members, i + 1, n, depth, key)
    ensures Bounded(members[i].value, depth + 1).Some?
    ensures HasMember(BoundedMembers(members, n, bounded, depth), key, Bounded(members[i].value, depth + 1).value)
    decreases |members|
  {
    PutNextMeans(members[i], bounded, depth, key, members[i].value);
    NoneLandsFurther(members, i + 1, n, depth, key);
    if i == 0 {
      var value := Bounded(members[0].value, depth + 1).value;
      KeyStays(members[1..], n - 1, PutNext(members[0], bounded, depth), depth, key, value);
    } else {
      assert members[1..][i - 1] == members[i];
      LastMemberWins(members[1..], n - 1, PutNext(members[0], bounded, depth), depth, key, i - 1);
    }
  }

  /** Under each key of the result stands the last member, among the first 32, that lands there. */
  ghost predicate HoldsMembers(members: seq<Member>, kept: seq<Member>, depth: nat) {
    && (forall i: nat, key: string | i < 32 && i < |members| && Lands(members[i], depth, key)
                                    && NoneLands(members, i + 1, 32, depth, key) ::
          Bounded(members[i].value, depth + 1).Some?
          && HasMember(kept, key, Bounded(members[i].value, depth + 1).value))
    && (forall key: string | NoneLands(members, 0, 32, depth, key) :: Lacks(kept, key))
  }

  lemma MembersKept(members: seq<Member>, depth: nat)
    ensures HoldsMembers(members, BoundedMembers(members, MAX_MEMBERS, [], depth), depth)
  {
    forall i: nat, key: string | i < 32 && i < |members| && Lands(members[i], depth, key)
                                 && NoneLands(members, i + 1, 32, depth, key)
      ensures Bounded(members[i].value, depth + 1).Some?
      ensures HasMember(BoundedMembers(members, MAX_MEMBERS, [], depth), key,
                        Bounded(members[i].value, depth + 1).value)
    {
      LastMemberWins(members, MAX_MEMBERS, [], depth, key, i);
    }
    forall key: string | NoneLands(members, 0, 32, depth, key)
      ensures Lacks(BoundedMembers(members, MAX_MEMBERS, [], depth), key)
    {
      KeyStays(members, MAX_MEMBERS, [], depth, key, Null);
    }
  }

  /** What a value becomes, one level at a time. */
  ghost predicate Becomes(v: Value, w: Value, depth: nat) {
    match v
    case Boolean(_) => w == v
    case Text(s) => w.Text? && w.s <= s && |w.s| == (if |s| < 240 then |s| else 240)
    case Number(n) => w.Number? && IsNearest(n, w.n)
    case List(items) =>
      w.List? && exists places :: ArePlaces(items, 128, depth, places) && HoldsItems(items, w.items, depth, places)
    case Dict(members) => w.Dict? && HoldsMembers(members, w.members, depth)
    case _ => false
  }

  /**
   * What bounding keeps: a value is dropped exactly when it is nested too deeply or of no kind that
   * is shown. Otherwise a text is its first 240 characters, a number the closest within 10000 of
   * zero, a list the kept ones of its first 128 items, in order, and an object has under each
   * shortened key the last of its first 32 members that is kept there.
   */
  lemma BoundingKeeps(v: Value, depth: nat)
    ensures Bounded(v, depth).None? <==> Drops(v, depth)
    ensures Bounded(v, depth).Some? ==> Becomes(v, Bounded(v, depth).value, depth)
  {
    DropsIffNone(v, depth);
    if Bounded(v, depth).Some? {
      match v {
        case List(items) =>
          var places := ItemsKept(items, MAX_ITEMS, depth);
        case Dict(members) => MembersKept(members, depth);
        case _ =>
      }
    }
  }
}

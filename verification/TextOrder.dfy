/**
 * Sorting by string key. Go compares strings byte by byte, which on valid UTF-8 is comparison
 * by code point.
 */
module TextOrder {

  predicate Le(a: string, b: string) {
    a == "" || (b != "" && (a[0] < b[0] || (a[0] == b[0] && Le(a[1..], b[1..]))))
  }

  lemma {:induction false} LeTotal(a: string, b: string)
    ensures Le(a, b) || Le(b, a)
    ensures Le(a, a)
  {
    if a != "" {
      LeTotal(a[1..], if b == "" then "" else b[1..]);
    }
  }

  lemma {:induction false} LeAntisymmetric(a: string, b: string)
    requires Le(a, b) && Le(b, a)
    ensures a == b
  {
    if a != "" {
      LeAntisymmetric(a[1..], b[1..]);
      assert a == [a[0]] + a[1..] && b == [b[0]] + b[1..];
    }
  }

  lemma {:induction false} LeTransitive(a: string, b: string, c: string)
    requires Le(a, b) && Le(b, c)
    ensures Le(a, c)
  {
    if a != "" && a[0] == b[0] == c[0] {
      LeTransitive(a[1..], b[1..], c[1..]);
    }
  }

  /** The first place where the two differ, and there `a` has the smaller character. */
  predicate DiffersAt(a: string, b: string, k: nat) {
    k < |a| && k < |b| && a[..k] == b[..k] && a[k] < b[k]
  }

  lemma DiffersLater(a: string, b: string, k: nat)
    requires a != "" && b != "" && k > 0
    ensures DiffersAt(a, b, k) <==> a[0] == b[0] && DiffersAt(a[1..], b[1..], k - 1)
  {
    if k < |a| && k < |b| {
      assert a[..k] == [a[0]] + a[1..][..k - 1] && b[..k] == [b[0]] + b[1..][..k - 1];
      assert a[1..][..k - 1] == a[..k][1..] && b[1..][..k - 1] == b[..k][1..];
      assert a[..k][0] == a[0] && b[..k][0] == b[0];
    }
  }

  /** The order of the dictionary: a beginning comes first, else the first difference decides. */
  lemma {:induction false} LeIsLexical(a: string, b: string)
    ensures Le(a, b) <==> a <= b || exists k :: DiffersAt(a, b, k)
  {
    if a != "" && b != "" {
      LeIsLexical(a[1..], b[1..]);
      if k :| DiffersAt(a, b, k) {
        if k > 0 { DiffersLater(a, b, k); }
      }
      if a[0] < b[0] {
        assert DiffersAt(a, b, 0);
      }
      if k: nat :| DiffersAt(a[1..], b[1..], k) {
        DiffersLater(a, b, k + 1);
      }
    }
  }

  datatype Entry<T> = Entry(key: string, value: T)

  function Insert<T>(e: Entry<T>, s: seq<Entry<T>>): seq<Entry<T>> {
    if s == [] then [e]
    else if Le(e.key, s[0].key) then [e] + s
    else [s[0]] + Insert(e, s[1..])
  }

  /** The entries in ascending order of key. */
  function Sort<T>(s: seq<Entry<T>>): seq<Entry<T>> {
    if s == [] then [] else Insert(s[0], Sort(s[1..]))
  }

  /** Every key is at least `key`. */
  ghost predicate AtLeast<T>(key: string, s: seq<Entry<T>>) {
    forall i :: 0 <= i < |s| ==> Le(key, s[i].key)
  }

  /** No entry has this key. */
  ghost predicate Avoids<T>(key: string, s: seq<Entry<T>>) {
    forall i :: 0 <= i < |s| ==> s[i].key != key
  }

  ghost predicate Sorted<T>(s: seq<Entry<T>>) {
    s == [] || (AtLeast(s[0].key, s[1..]) && Sorted(s[1..]))
  }

  ghost predicate DistinctKeys<T>(s: seq<Entry<T>>) {
    s == [] || (Avoids(s[0].key, s[1..]) && DistinctKeys(s[1..]))
  }

  lemma {:induction false} InsertBounds<T>(key: string, e: Entry<T>, s: seq<Entry<T>>)
    ensures Le(key, e.key) && AtLeast(key, s) ==> AtLeast(key, Insert(e, s))
    ensures key != e.key && Avoids(key, s) ==> Avoids(key, Insert(e, s))
  {
    if s != [] && !Le(e.key, s[0].key) {
      InsertBounds(key, e, s[1..]);
    }
  }

  lemma {:induction false} SortBounds<T>(key: string, s: seq<Entry<T>>)
    ensures Avoids(key, s) ==> Avoids(key, Sort(s))
  {
    if s != [] {
      SortBounds(key, s[1..]);
      InsertBounds(key, s[0], Sort(s[1..]));
    }
  }

  lemma {:induction false} InsertSorts<T>(e: Entry<T>, s: seq<Entry<T>>)
    ensures Sorted(s) ==> Sorted(Insert(e, s))
    ensures DistinctKeys(s) && Avoids(e.key, s) ==> DistinctKeys(Insert(e, s))
  {
    if s == [] {
    } else if Le(e.key, s[0].key) {
      assert ([e] + s)[1..] == s;
      if Sorted(s) {
        forall i | 0 <= i < |s| ensures Le(e.key, s[i].key) {
          if i > 0 {
            assert s[i] == s[1..][i - 1];
            LeTransitive(e.key, s[0].key, s[i].key);
          }
        }
      }
    } else {
      LeTotal(e.key, s[0].key);
      InsertSorts(e, s[1..]);
      InsertBounds(s[0].key, e, s[1..]);
      assert ([s[0]] + Insert(e, s[1..]))[1..] == Insert(e, s[1..]);
    }
  }

  lemma {:induction false} SortSorts<T>(s: seq<Entry<T>>)
    ensures Sorted(Sort(s))
    ensures DistinctKeys(s) ==> DistinctKeys(Sort(s))
  {
    if s != [] {
      SortSorts(s[1..]);
      SortBounds(s[0].key, s[1..]);
      InsertSorts(s[0], Sort(s[1..]));
    }
  }

  lemma {:induction false} InsertElements<T>(e: Entry<T>, s: seq<Entry<T>>, x: Entry<T>)
    ensures x in Insert(e, s) <==> x == e || x in s
  {
    if s != [] && !Le(e.key, s[0].key) {
      InsertElements(e, s[1..], x);
    }
  }

  lemma {:induction false} SortElements<T>(s: seq<Entry<T>>, x: Entry<T>)
    ensures x in Sort(s) <==> x in s
  {
    if s != [] {
      SortElements(s[1..], x);
      InsertElements(s[0], Sort(s[1..]), x);
    }
  }

  ghost predicate SameElements<T(!new)>(a: seq<Entry<T>>, b: seq<Entry<T>>) {
    forall x: Entry<T> :: x in a <==> x in b
  }

  lemma SmallestKey<T>(a: seq<Entry<T>>, x: Entry<T>)
    requires Sorted(a) && x in a
    ensures Le(a[0].key, x.key)
  {
    LeTotal(a[0].key, a[0].key);
    var i :| 0 <= i < |a| && a[i] == x;
    if i > 0 {
      assert a[i] == a[1..][i - 1];
    }
  }

  lemma OneEntryPerKey<T>(a: seq<Entry<T>>, x: Entry<T>)
    requires DistinctKeys(a) && x in a && x.key == a[0].key
    ensures x == a[0]
  {
    var i :| 0 <= i < |a| && a[i] == x;
    if i > 0 {
      assert a[i] == a[1..][i - 1];
    }
  }

  /** Entries with distinct keys can be sorted in one way only. */
  lemma {:induction false} SortedUnique<T(!new)>(a: seq<Entry<T>>, b: seq<Entry<T>>)
    requires Sorted(a) && DistinctKeys(a) && Sorted(b) && DistinctKeys(b) && SameElements(a, b)
    ensures a == b
  {
    assert b != [] ==> b[0] in b && b[0] in a;
    if a != [] {
      assert a[0] in b;
      SmallestKey(a, b[0]);
      SmallestKey(b, a[0]);
      LeAntisymmetric(a[0].key, b[0].key);
      OneEntryPerKey(a, b[0]);
      forall x: Entry<T> ensures x in a[1..] <==> x in b[1..] {
        TailElements(a, x);
        TailElements(b, x);
      }
      SortedUnique(a[1..], b[1..]);
      assert a == [a[0]] + a[1..] && b == [b[0]] + b[1..];
    }
  }

  lemma TailElements<T>(a: seq<Entry<T>>, x: Entry<T>)
    requires a != [] && DistinctKeys(a)
    ensures x in a[1..] <==> x in a && x != a[0]
  {
    if x in a[1..] {
      var i :| 0 <= i < |a[1..]| && a[1..][i] == x;
      assert a[i + 1] == x;
    }
    if x in a && x != a[0] {
      var i :| 0 <= i < |a| && a[i] == x;
      assert a[1..][i - 1] == x;
    }
  }
}

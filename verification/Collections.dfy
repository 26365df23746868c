/** Sequence vocabulary shared by the models: bounded tails, bounded heads, flattening. */
module Collections {

  datatype Option<+T> = None | Some(value: T)

  /** The last `n` elements, or everything when there are fewer: `s.slice(-n)`. */
  function Suffix<T>(s: seq<T>, n: nat): (r: seq<T>)
    ensures |r| == if |s| <= n then |s| else n
    ensures r == s[|s| - |r|..]
  {
    if |s| <= n then s else s[|s| - n..]
  }

  /** The first `n` elements, or everything when there are fewer: `s.slice(0, n)`. */
  function Prefix<T>(s: seq<T>, n: nat): (r: seq<T>)
    ensures |r| == if |s| <= n then |s| else n
    ensures r == s[..|r|]
  {
    if |s| <= n then s else s[..n]
  }

  /** Trimming to a tail before appending loses nothing that the final trim would keep. */
  lemma SuffixAfterSuffix<T>(a: seq<T>, b: seq<T>, n: nat)
    ensures Suffix(Suffix(a, n) + b, n) == Suffix(a + b, n)
  {
    var kept := Suffix(a, n);
    assert kept == a[|a| - |kept|..];
    assert a + b == a[..|a| - |kept|] + (kept + b);
  }

  /** Trimming to a head before appending loses nothing that the final trim would keep. */
  lemma PrefixAfterPrefix<T>(a: seq<T>, b: seq<T>, n: nat)
    ensures Prefix(Prefix(a, n) + b, n) == Prefix(a + b, n)
  {
  }

  function Flatten<T>(ss: seq<seq<T>>): seq<T> {
    if ss == [] then [] else ss[0] + Flatten(ss[1..])
  }

  /** `n` numbers in a row. */
  function Numbers(from: nat, n: nat): (r: seq<nat>)
    ensures |r| == n && forall i | 0 <= i < n :: r[i] == from + i
  {
    seq(n, i requires 0 <= i < n => from + i)
  }

  ghost predicate NoDuplicates<T>(s: seq<T>) {
    forall i, j :: 0 <= i < j < |s| ==> s[i] != s[j]
  }
}

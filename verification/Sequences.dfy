/** Joining and splitting sequences. */
module Sequences {

  lemma SplitLast<T>(s: seq<T>)
    requires s != []
    ensures s == s[..|s| - 1] + [s[|s| - 1]]
  {
  }

  lemma AppendAssociative<T>(a: seq<T>, b: seq<T>, c: seq<T>)
    ensures (a + b) + c == a + (b + c)
  {
  }

  /** The first `n` parts, joined. */
  function Flat<T>(parts: seq<seq<T>>, n: nat): seq<T>
    requires n <= |parts|
  {
    if n == 0 then [] else Flat(parts, n - 1) + parts[n - 1]
  }

  lemma {:induction false} FlatEqual<T>(a: seq<seq<T>>, b: seq<seq<T>>, n: nat)
    requires n <= |a| == |b| && forall k | 0 <= k < n :: |a[k]| == |b[k]|
    ensures |Flat(a, n)| == |Flat(b, n)|
    ensures Flat(a, n) == Flat(b, n) <==> forall k | 0 <= k < n :: a[k] == b[k]
  {
    if n > 0 {
      FlatEqual(a, b, n - 1);
      AppendEqual(Flat(a, n - 1), Flat(b, n - 1), a[n - 1], b[n - 1]);
    }
  }

  lemma AppendEqual<T>(a: seq<T>, b: seq<T>, x: seq<T>, y: seq<T>)
    requires |a| == |b|
    ensures a + x == b + y <==> a == b && x == y
  {
    assert (a + x)[..|a|] == a && (b + y)[..|b|] == b;
    assert (a + x)[|a|..] == x && (b + y)[|b|..] == y;
  }
}

/** Sequence shapes used by the cogs: slicing into pages, flattening, first-seen de-duplication. */
module Seqs {
  import opened Text

  /** `ceil(a / n)` */
  function CeilDiv(a: nat, n: nat): nat
    requires n > 0
    decreases a
  {
    if a == 0 then 0 else if a <= n then 1 else 1 + CeilDiv(a - n, n)
  }

  /** `CeilDiv(a, n)` is the least number of `n`-sized pages that hold `a` items. */
  lemma {:induction false} CeilDivBounds(a: nat, n: nat)
    requires n > 0
    ensures a <= CeilDiv(a, n) * n
    ensures a > 0 ==> (CeilDiv(a, n) - 1) * n < a
    decreases a
  {
    if a > n {
      CeilDivBounds(a - n, n);
      var c := CeilDiv(a - n, n);
      assert (c + 1) * n == c * n + n;
      assert c * n == (c - 1) * n + n;
    }
  }

  /** `[xs[i : i + n] for i in range(0, len(xs), n)]` */
  function Chunks<T>(xs: seq<T>, n: nat): seq<seq<T>>
    requires n > 0
    decreases |xs|
  {
    if |xs| == 0 then []
    else if |xs| <= n then [xs]
    else [xs[..n]] + Chunks(xs[n..], n)
  }

  function Flatten<T>(ss: seq<seq<T>>): seq<T>
  {
    if |ss| == 0 then [] else ss[0] + Flatten(ss[1..])
  }

  lemma {:induction false} FlattenAppend<T>(ss: seq<seq<T>>, s: seq<T>)
    ensures Flatten(ss + [s]) == Flatten(ss) + s
    decreases |ss|
  {
    if |ss| == 0 {
      assert [s][1..] == [];
      assert s + [] == s;
    } else {
      assert (ss + [s])[1..] == ss[1..] + [s];
      FlattenAppend(ss[1..], s);
    }
  }

  /** `[f(x) for x in xs]` */
  function MapSeq<T, U>(f: T -> U, xs: seq<T>): (r: seq<U>)
    ensures |r| == |xs|
    ensures forall i :: 0 <= i < |xs| ==> r[i] == f(xs[i])
  {
    seq(|xs|, i requires 0 <= i < |xs| => f(xs[i]))
  }

  lemma MapSeqPrefix<T, U>(f: T -> U, xs: seq<T>)
    requires |xs| > 0
    ensures MapSeq(f, xs) == MapSeq(f, xs[..|xs| - 1]) + [f(xs[|xs| - 1])]
  {
    var p := xs[..|xs| - 1];
    var g, h := MapSeq(f, xs), MapSeq(f, p) + [f(xs[|xs| - 1])];
    forall k | 0 <= k < |g|
      ensures g[k] == h[k]
    {
      if k < |p| {
        assert p[k] == xs[k];
      }
    }
  }

  /** The first `m` elements, or all of them when there are fewer. */
  function Take<T>(ss: seq<T>, m: nat): (r: seq<T>)
    ensures |r| == Min(m, |ss|)
  {
    ss[..Min(m, |ss|)]
  }

  /** There are `ceil(|xs| / n)` chunks. */
  lemma {:induction false} ChunksCount<T>(xs: seq<T>, n: nat)
    requires n > 0
    ensures |Chunks(xs, n)| == CeilDiv(|xs|, n)
    decreases |xs|
  {
    if |xs| > n {
      ChunksCount(xs[n..], n);
    }
  }

  /** Chunk `k` is the slice `xs[k*n .. (k+1)*n]`, clipped at the end: order is kept and nothing is skipped. */
  lemma {:induction false} ChunkAt<T>(xs: seq<T>, n: nat, k: nat)
    requires n > 0
    requires k < |Chunks(xs, n)|
    ensures k * n < |xs|
    ensures Chunks(xs, n)[k] == xs[k * n .. Min(k * n + n, |xs|)]
    decreases |xs|
  {
    if |xs| > n && k > 0 {
      ChunkAt(xs[n..], n, k - 1);
      assert (k - 1) * n + n == k * n;
    }
  }

  /** Every chunk is non-empty and at most `n` long; all but the last are exactly `n` long. */
  lemma ChunkSizes<T>(xs: seq<T>, n: nat, k: nat)
    requires n > 0
    requires k < |Chunks(xs, n)|
    ensures 0 < |Chunks(xs, n)[k]| <= n
    ensures k < |Chunks(xs, n)| - 1 ==> |Chunks(xs, n)[k]| == n
  {
    ChunkAt(xs, n, k);
    if k < |Chunks(xs, n)| - 1 {
      ChunkAt(xs, n, k + 1);
      assert (k + 1) * n == k * n + n;
    }
  }

  /** Putting the chunks back together gives the input. */
  lemma {:induction false} FlattenChunks<T>(xs: seq<T>, n: nat)
    requires n > 0
    ensures Flatten(Chunks(xs, n)) == xs
    decreases |xs|
  {
    if |xs| > n {
      FlattenChunks(xs[n..], n);
      assert Chunks(xs, n)[1..] == Chunks(xs[n..], n);
      assert xs == xs[..n] + xs[n..];
    } else if |xs| > 0 {
      assert Chunks(xs, n)[1..] == [];
      assert xs + [] == xs;
    }
  }

  /** The first `m` chunks cover exactly the first `m * n` elements. */
  lemma {:induction false} FlattenTakeChunks<T>(xs: seq<T>, n: nat, m: nat)
    requires n > 0
    ensures Flatten(Take(Chunks(xs, n), m)) == xs[..Min(|xs|, m * n)]
    decreases |xs|
  {
    var cs := Chunks(xs, n);
    var mn := m * n;
    if m == 0 || |xs| == 0 {
      assert Take(cs, m) == [];
    } else if |xs| <= n {
      assert mn >= n by { MulAtLeast(m, n); }
      assert Take(cs, m) == [xs];
      assert Flatten([xs]) == xs + Flatten([xs][1..]);
      assert [xs][1..] == [];
    } else {
      var rest := xs[n..];
      var k := (m - 1) * n;
      assert k + n == mn;
      FlattenTakeChunks(rest, n, m - 1);
      TakeChunksStep(xs, n, m);
      assert xs[..Min(|xs|, mn)] == xs[..n] + rest[..Min(|rest|, k)];
    }
  }

  lemma MulAtLeast(m: nat, n: nat)
    requires m >= 1
    ensures m * n >= n
  {
  }

  lemma TakeChunksStep<T>(xs: seq<T>, n: nat, m: nat)
    requires n > 0 && m > 0 && |xs| > n
    ensures Flatten(Take(Chunks(xs, n), m)) == xs[..n] + Flatten(Take(Chunks(xs[n..], n), m - 1))
  {
    var t := Take(Chunks(xs, n), m);
    assert t[0] == xs[..n];
    assert t[1..] == Take(Chunks(xs[n..], n), m - 1);
  }

  /** The position of the first occurrence of `y` in `xs`. */
  function FirstIndex<T(==)>(xs: seq<T>, y: T): (r: nat)
    requires y in xs
    ensures r < |xs| && xs[r] == y && y !in xs[..r]
  {
    if xs[0] == y then 0
    else
      var k := FirstIndex(xs[1..], y);
      assert xs[..k + 1] == [xs[0]] + xs[1..][..k];
      k + 1
  }

  predicate Distinct<T(==)>(xs: seq<T>)
  {
    forall i, j :: 0 <= i < j < |xs| ==> xs[i] != xs[j]
  }

  /** The distinct elements of `xs` in first-seen order (what a growing `set` guard keeps). */
  function Dedup<T(==)>(xs: seq<T>): seq<T>
    decreases |xs|
  {
    if |xs| == 0 then []
    else
      var d := Dedup(xs[..|xs| - 1]);
      if xs[|xs| - 1] in d then d else d + [xs[|xs| - 1]]
  }

  lemma FirstIndexOfPrefix<T>(xs: seq<T>, y: T)
    requires |xs| > 0 && y in xs[..|xs| - 1]
    ensures FirstIndex(xs, y) == FirstIndex(xs[..|xs| - 1], y)
  {
    var p := xs[..|xs| - 1];
    var a, b := FirstIndex(xs, y), FirstIndex(p, y);
    assert xs[..b] == p[..b];
  }

  /** The de-duplicated sequence holds each element of `xs` once, and in first-seen order. */
  lemma {:induction false} DedupSpec<T>(xs: seq<T>)
    ensures Distinct(Dedup(xs))
    ensures forall y :: y in Dedup(xs) ==> y in xs
    ensures forall y :: y in xs ==> y in Dedup(xs)
    ensures forall i, j :: 0 <= i < j < |Dedup(xs)| ==>
      FirstIndex(xs, Dedup(xs)[i]) < FirstIndex(xs, Dedup(xs)[j])
    decreases |xs|
  {
    if |xs| > 0 {
      var p := xs[..|xs| - 1];
      var x := xs[|xs| - 1];
      DedupSpec(p);
      assert xs == p + [x];
      var d := Dedup(p);
      forall y | y in d ensures FirstIndex(xs, y) == FirstIndex(p, y) {
        assert y in p;
        FirstIndexOfPrefix(xs, y);
      }
      if x !in d {
        assert x !in p;
        assert xs[..|xs| - 1] == p;
        forall i | 0 <= i < |d| ensures FirstIndex(xs, d[i]) < |xs| - 1 {
          assert d[i] in d;
        }
      }
    }
  }
}

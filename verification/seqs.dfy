/** Sequence helpers shared by the dashboard: JavaScript `slice(0, n)`, fixed
    size chunking (trend buckets, request batches), counting and summing. */
module Seqs {

  /** JavaScript `s.slice(0, n)` for a non-negative n. */
  function Take<T>(s: seq<T>, n: nat): (r: seq<T>)
    ensures |r| == if n < |s| then n else |s|
    ensures r == s[..|r|]
  {
    if n < |s| then s[..n] else s
  }

  /** A prefix holds no element more often than the whole sequence. */
  lemma TakeSubMultiset<T>(s: seq<T>, n: nat)
    ensures multiset(Take(s, n)) <= multiset(s)
  {
    var k := |Take(s, n)|;
    assert s == s[..k] + s[k..];
    assert multiset(s) == multiset(s[..k]) + multiset(s[k..]);
  }

  function Flatten<T>(cs: seq<seq<T>>): seq<T>
    decreases |cs|
  {
    if |cs| == 0 then [] else cs[0] + Flatten(cs[1..])
  }

  function Min(a: int, b: int): int
  {
    if a < b then a else b
  }

  /** Consecutive pieces of `size` elements, the last one possibly shorter:
      the loop `for (i = 0; i < n; i += size) chunks.push(s.slice(i, i + size))`. */
  function Chunks<T>(s: seq<T>, size: nat): (cs: seq<seq<T>>)
    requires size > 0
    ensures |s| == 0 <==> |cs| == 0
    decreases |s|
  {
    if |s| == 0 then []
    else if |s| <= size then [s]
    else [s[..size]] + Chunks(s[size..], size)
  }

  lemma ChunksTail<T>(s: seq<T>, size: nat)
    requires 0 < size < |s|
    ensures Chunks(s, size) == [s[..size]] + Chunks(s[size..], size)
  {
  }

  lemma ChunksHead<T>(s: seq<T>, size: nat)
    requires 0 < size && 0 < |s|
    ensures Chunks(s, size)[0] == s[..Min(size, |s|)]
  {
  }

  lemma ChunkTailAt<T>(s: seq<T>, size: nat, i: nat)
    requires 0 < size < |s|
    requires 0 < i < |Chunks(s, size)|
    ensures i - 1 < |Chunks(s[size..], size)|
    ensures Chunks(s, size)[i] == Chunks(s[size..], size)[i - 1]
  {
    ChunksTail(s, size);
  }

  lemma SliceOfSuffix<T>(s: seq<T>, k: nat, a: nat, b: nat)
    requires k <= |s| && a <= b <= |s| - k
    ensures s[k..][a..b] == s[a + k .. b + k]
  {
  }

  /** Chunk i holds exactly the `size` elements (fewer for the last chunk)
      starting at position k = i*size, in order. */
  lemma {:induction false} ChunkAt<T>(s: seq<T>, size: nat, i: nat, k: nat)
    requires size > 0
    requires i < |Chunks(s, size)|
    requires k == i * size
    ensures k < |s|
    ensures Chunks(s, size)[i] == s[k .. Min(k + size, |s|)]
    decreases |s|
  {
    if i == 0 {
      ChunksHead(s, size);
    } else {
      assert |s| > size;
      ChunkTailAt(s, size, i);
      var rest := s[size..];
      var j: nat := i - 1;
      var k' := k - size;
      assert k' == j * size;
      ChunkAt(rest, size, j, k');
      var hi := Min(k' + size, |rest|);
      SliceOfSuffix(s, size, k', hi);
    }
  }

  /** Chunk i exists exactly when position i*size lies inside `s`. */
  lemma {:induction false} ChunkExists<T>(s: seq<T>, size: nat, i: nat)
    requires size > 0
    ensures i < |Chunks(s, size)| <==> i * size < |s|
    decreases |s|
  {
    if i > 0 && |s| > size {
      ChunksTail(s, size);
      var j: nat := i - 1;
      ChunkExists(s[size..], size, j);
      assert j * size == i * size - size;
    } else if i > 0 && |s| > 0 {
      assert |Chunks(s, size)| == 1;
      assert i * size >= size;
    }
  }

  /** Concatenating the chunks in order gives back the whole sequence. */
  lemma {:induction false} FlattenChunks<T>(s: seq<T>, size: nat)
    requires size > 0
    ensures Flatten(Chunks(s, size)) == s
    decreases |s|
  {
    if 0 < |s| <= size {
      assert Flatten([s]) == s + Flatten([s][1..]);
    } else if |s| > size {
      var cs := Chunks(s, size);
      ChunksTail(s, size);
      FlattenChunks(s[size..], size);
      assert cs[1..] == Chunks(s[size..], size);
      assert s[..size] + s[size..] == s;
    }
  }

  /** The number of elements satisfying `p`. */
  function Count<T>(s: seq<T>, p: T -> bool): (n: nat)
    ensures n <= |s|
    decreases |s|
  {
    if |s| == 0 then 0 else (if p(s[0]) then 1 else 0) + Count(s[1..], p)
  }

  function Sum(xs: seq<real>): real
    decreases |xs|
  {
    if |xs| == 0 then 0.0 else xs[0] + Sum(xs[1..])
  }

  /** A sum of values in [lo, hi] lies between |xs|*lo and |xs|*hi. */
  lemma {:induction false} SumBounds(xs: seq<real>, lo: real, hi: real)
    requires forall i :: 0 <= i < |xs| ==> lo <= xs[i] <= hi
    ensures (|xs| as real) * lo <= Sum(xs) <= (|xs| as real) * hi
    decreases |xs|
  {
    if |xs| > 0 {
      SumBounds(xs[1..], lo, hi);
    }
  }

  /** JavaScript `s.filter(p)`: the elements satisfying `p`, in order. */
  function Filter<T>(s: seq<T>, p: T -> bool): (r: seq<T>)
    ensures |r| == Count(s, p)
    ensures forall i :: 0 <= i < |r| ==> p(r[i]) && r[i] in s
    ensures forall i :: 0 <= i < |s| && p(s[i]) ==> s[i] in r
    decreases |s|
  {
    if |s| == 0 then []
    else
      var rest := Filter(s[1..], p);
      assert forall i :: 1 <= i < |s| ==> s[i] == s[1..][i - 1];
      (if p(s[0]) then [s[0]] else []) + rest
  }

  /** A filter every element passes changes nothing. */
  lemma {:induction false} FilterAll<T>(s: seq<T>, p: T -> bool)
    requires forall i :: 0 <= i < |s| ==> p(s[i])
    ensures Filter(s, p) == s
    decreases |s|
  {
    if |s| > 0 {
      FilterAll(s[1..], p);
      assert [s[0]] + s[1..] == s;
    }
  }

  function Max(a: int, b: int): int
  {
    if a < b then b else a
  }

  /** The total of an integer measure over a sequence. */
  function SumOf<T>(f: T -> int, s: seq<T>): int
    decreases |s|
  {
    if |s| == 0 then 0 else f(s[0]) + SumOf(f, s[1..])
  }

  lemma {:induction false} SumOfAppend<T>(f: T -> int, s: seq<T>, x: T)
    ensures SumOf(f, s + [x]) == SumOf(f, s) + f(x)
    decreases |s|
  {
    if |s| == 0 {
      assert ([] + [x])[1..] == [];
    } else {
      SumOfAppend(f, s[1..], x);
      assert (s + [x])[1..] == s[1..] + [x];
    }
  }

  lemma {:induction false} SumOfUpdate<T>(f: T -> int, s: seq<T>, i: nat, x: T)
    requires i < |s|
    ensures SumOf(f, s[i := x]) == SumOf(f, s) - f(s[i]) + f(x)
    decreases |s|
  {
    if i > 0 {
      SumOfUpdate(f, s[1..], i - 1, x);
      assert s[i := x][1..] == s[1..][i - 1 := x];
    } else {
      assert s[i := x][1..] == s[1..];
    }
  }

  /** Two sequences whose elements measure the same, position by position,
      have the same total. */
  lemma {:induction false} SumOfPointwise<T, U>(f: T -> int, s: seq<T>, g: U -> int, t: seq<U>)
    requires |s| == |t|
    requires forall i :: 0 <= i < |s| ==> f(s[i]) == g(t[i])
    ensures SumOf(f, s) == SumOf(g, t)
    decreases |s|
  {
    if |s| > 0 {
      SumOfPointwise(f, s[1..], g, t[1..]);
    }
  }

  /** Every element passes exactly when all are counted; none passes
      exactly when none is. */
  lemma {:induction false} CountExtremes<T>(s: seq<T>, p: T -> bool)
    ensures Count(s, p) == |s| <==> forall i :: 0 <= i < |s| ==> p(s[i])
    ensures Count(s, p) == 0 <==> forall i :: 0 <= i < |s| ==> !p(s[i])
    decreases |s|
  {
    if |s| > 0 {
      CountExtremes(s[1..], p);
      assert forall i :: 1 <= i < |s| ==> s[i] == s[1..][i - 1];
    }
  }

  lemma {:induction false} SumNonNegative(xs: seq<real>)
    requires forall i :: 0 <= i < |xs| ==> xs[i] >= 0.0
    ensures Sum(xs) >= 0.0
    decreases |xs|
  {
    if |xs| > 0 {
      SumNonNegative(xs[1..]);
    }
  }

  lemma {:induction false} CountAppend<T>(a: seq<T>, b: seq<T>, p: T -> bool)
    ensures Count(a + b, p) == Count(a, p) + Count(b, p)
    decreases |a|
  {
    if |a| > 0 {
      CountAppend(a[1..], b, p);
      assert (a + b)[1..] == a[1..] + b;
    } else {
      assert a + b == b;
    }
  }
}

/** JavaScript `Array.prototype.sort` with a comparator that orders by one or
    two numeric keys, largest first (`b.key - a.key`). The engine's sort is
    stable, so elements whose keys tie keep their input order; a stable sort
    by a consistent comparator has exactly one possible outcome, modelled here
    as an insertion sort. */
module Sorting {

  import opened Seqs

  /** `a` must come strictly before `b`: a larger first key, or an equal first
      key and a larger second key. */
  predicate Precedes<T>(k1: T -> real, k2: T -> real, a: T, b: T)
  {
    k1(a) > k1(b) || (k1(a) == k1(b) && k2(a) > k2(b))
  }

  /** No element is preceded by a later one. */
  predicate SortedDesc<T>(k1: T -> real, k2: T -> real, s: seq<T>)
  {
    forall i, j :: 0 <= i < j < |s| ==> !Precedes(k1, k2, s[j], s[i])
  }

  /** The elements of `s` whose two keys are (u, v), in their order in `s`. */
  function KeyClass<T>(k1: T -> real, k2: T -> real, u: real, v: real, s: seq<T>): (c: seq<T>)
    ensures |c| <= |s|
    decreases |s|
  {
    if |s| == 0 then []
    else if k1(s[0]) == u && k2(s[0]) == v then [s[0]] + KeyClass(k1, k2, u, v, s[1..])
    else KeyClass(k1, k2, u, v, s[1..])
  }

  /** Places `x` in front of the first element of `t` that does not precede it. */
  function Insert<T>(k1: T -> real, k2: T -> real, x: T, t: seq<T>): (r: seq<T>)
    decreases |t|
  {
    if |t| == 0 || !Precedes(k1, k2, t[0], x) then [x] + t
    else [t[0]] + Insert(k1, k2, x, t[1..])
  }

  /** The stable descending sort of `s`. */
  function SortDesc<T>(k1: T -> real, k2: T -> real, s: seq<T>): (r: seq<T>)
    decreases |s|
  {
    if |s| == 0 then [] else Insert(k1, k2, s[0], SortDesc(k1, k2, s[1..]))
  }

  /** Sorting by a single key: the second key is constant. */
  function ByOne<T>(k: T -> real, s: seq<T>): (r: seq<T>)
  {
    SortDesc(k, (_: T) => 0.0, s)
  }

  lemma {:induction false} InsertPermutes<T>(k1: T -> real, k2: T -> real, x: T, t: seq<T>)
    ensures multiset(Insert(k1, k2, x, t)) == multiset([x] + t)
    decreases |t|
  {
    if |t| > 0 && Precedes(k1, k2, t[0], x) {
      InsertPermutes(k1, k2, x, t[1..]);
      assert t == [t[0]] + t[1..];
    }
  }

  lemma {:induction false} InsertSorted<T>(k1: T -> real, k2: T -> real, x: T, t: seq<T>)
    requires SortedDesc(k1, k2, t)
    ensures SortedDesc(k1, k2, Insert(k1, k2, x, t))
    decreases |t|
  {
    var r := Insert(k1, k2, x, t);
    if |t| == 0 || !Precedes(k1, k2, t[0], x) {
      forall i, j | 0 <= i < j < |r|
        ensures !Precedes(k1, k2, r[j], r[i])
      {
        if i > 0 {
          assert r[i] == t[i - 1] && r[j] == t[j - 1];
        } else {
          assert r[j] == t[j - 1];
          assert !Precedes(k1, k2, t[j - 1], t[0]);
        }
      }
    } else {
      var rest := Insert(k1, k2, x, t[1..]);
      InsertSorted(k1, k2, x, t[1..]);
      forall i | 0 <= i < |t[1..]|
        ensures !Precedes(k1, k2, t[1..][i], t[0])
      {
        assert t[1..][i] == t[i + 1];
      }
      InsertBounded(k1, k2, x, t[1..], t[0]);
      forall i, j | 0 <= i < j < |r|
        ensures !Precedes(k1, k2, r[j], r[i])
      {
        assert r[j] == rest[j - 1];
        if i > 0 {
          assert r[i] == rest[i - 1];
        }
      }
    }
  }

  /** Inserting keeps every element from preceding a bound that neither `x`
      nor any element of `t` precedes. */
  lemma {:induction false} InsertBounded<T>(k1: T -> real, k2: T -> real, x: T, t: seq<T>, h: T)
    requires !Precedes(k1, k2, x, h)
    requires forall i :: 0 <= i < |t| ==> !Precedes(k1, k2, t[i], h)
    ensures forall i :: 0 <= i < |Insert(k1, k2, x, t)| ==> !Precedes(k1, k2, Insert(k1, k2, x, t)[i], h)
    decreases |t|
  {
    var r := Insert(k1, k2, x, t);
    if |t| > 0 && Precedes(k1, k2, t[0], x) {
      var rest := Insert(k1, k2, x, t[1..]);
      InsertBounded(k1, k2, x, t[1..], h);
      forall i | 0 <= i < |r|
        ensures !Precedes(k1, k2, r[i], h)
      {
        if i > 0 {
          assert r[i] == rest[i - 1];
        }
      }
    } else {
      forall i | 0 <= i < |r|
        ensures !Precedes(k1, k2, r[i], h)
      {
        if i > 0 {
          assert r[i] == t[i - 1];
        }
      }
    }
  }

  /** The sort returns a descending permutation of its input. */
  lemma {:induction false} SortDescCorrect<T>(k1: T -> real, k2: T -> real, s: seq<T>)
    ensures |SortDesc(k1, k2, s)| == |s|
    ensures multiset(SortDesc(k1, k2, s)) == multiset(s)
    ensures SortedDesc(k1, k2, SortDesc(k1, k2, s))
    decreases |s|
  {
    if |s| > 0 {
      SortDescCorrect(k1, k2, s[1..]);
      InsertPermutes(k1, k2, s[0], SortDesc(k1, k2, s[1..]));
      InsertSorted(k1, k2, s[0], SortDesc(k1, k2, s[1..]));
      assert s == [s[0]] + s[1..];
      assert |multiset(SortDesc(k1, k2, s))| == |multiset(s)|;
    }
  }

  lemma {:induction false} KeyClassInsert<T>(k1: T -> real, k2: T -> real, u: real, v: real, x: T, t: seq<T>)
    ensures KeyClass(k1, k2, u, v, Insert(k1, k2, x, t)) == KeyClass(k1, k2, u, v, [x] + t)
    decreases |t|
  {
    if |t| > 0 && Precedes(k1, k2, t[0], x) {
      KeyClassInsert(k1, k2, u, v, x, t[1..]);
      var r := Insert(k1, k2, x, t);
      assert r[1..] == Insert(k1, k2, x, t[1..]);
      assert ([x] + t)[1..] == t;
      assert ([x] + t[1..])[1..] == t[1..];
      if k1(x) == u && k2(x) == v {
        // t[0] has keys different from x's, so it is outside the class
        assert !(k1(t[0]) == u && k2(t[0]) == v);
      }
    }
  }

  /** Stability: the elements sharing any given pair of keys appear in the
      output in the order they had in the input. */
  lemma {:induction false} SortDescStable<T>(k1: T -> real, k2: T -> real, u: real, v: real, s: seq<T>)
    ensures KeyClass(k1, k2, u, v, SortDesc(k1, k2, s)) == KeyClass(k1, k2, u, v, s)
    decreases |s|
  {
    if |s| > 0 {
      var t := SortDesc(k1, k2, s[1..]);
      SortDescStable(k1, k2, u, v, s[1..]);
      KeyClassInsert(k1, k2, u, v, s[0], t);
      assert ([s[0]] + t)[1..] == t;
    }
  }

  /** No two elements share a key. */
  predicate DistinctBy<T>(key: T -> string, s: seq<T>)
  {
    forall i, j :: 0 <= i < j < |s| ==> key(s[i]) != key(s[j])
  }

  /** No element of `u` shares a key with `h`. */
  predicate KeyAbsent<T>(key: T -> string, h: T, u: seq<T>)
  {
    forall i :: 0 <= i < |u| ==> key(u[i]) != key(h)
  }

  /** A permutation keeps a key absent. */
  lemma KeyAbsentPermuted<T>(key: T -> string, h: T, u: seq<T>, v: seq<T>)
    requires KeyAbsent(key, h, u) && multiset(v) == multiset(u)
    ensures KeyAbsent(key, h, v)
  {
    forall i | 0 <= i < |v|
      ensures key(v[i]) != key(h)
    {
      assert v[i] in multiset(u);
      var m :| 0 <= m < |u| && u[m] == v[i];
    }
  }

  /** A distinct sequence is a head whose key is absent from a distinct
      tail, and conversely. */
  lemma ConsDistinct<T>(key: T -> string, h: T, t: seq<T>)
    ensures DistinctBy(key, [h] + t) <==> KeyAbsent(key, h, t) && DistinctBy(key, t)
  {
    var s := [h] + t;
    if KeyAbsent(key, h, t) && DistinctBy(key, t) {
      forall i, j | 0 <= i < j < |s|
        ensures key(s[i]) != key(s[j])
      {
        assert s[j] == t[j - 1];
        if i > 0 {
          assert s[i] == t[i - 1];
        }
      }
    }
    if DistinctBy(key, s) {
      forall i | 0 <= i < |t|
        ensures key(t[i]) != key(h)
      {
        assert s[0] == h && s[i + 1] == t[i];
        assert key(s[0]) != key(s[i + 1]);
      }
      forall i, j | 0 <= i < j < |t|
        ensures key(t[i]) != key(t[j])
      {
        assert s[i + 1] == t[i] && s[j + 1] == t[j];
      }
    }
  }

  lemma {:induction false} InsertDistinct<T>(k1: T -> real, k2: T -> real, key: T -> string, x: T, t: seq<T>)
    requires DistinctBy(key, [x] + t)
    ensures DistinctBy(key, Insert(k1, k2, x, t))
    decreases |t|
  {
    if |t| > 0 && Precedes(k1, k2, t[0], x) {
      var rest := Insert(k1, k2, x, t[1..]);
      ConsDistinct(key, x, t);
      assert t == [t[0]] + t[1..];
      ConsDistinct(key, t[0], t[1..]);
      ConsDistinct(key, x, t[1..]);
      InsertDistinct(k1, k2, key, x, t[1..]);
      InsertPermutes(k1, k2, x, t[1..]);
      assert KeyAbsent(key, t[0], [x] + t[1..]) by {
        ConsDistinct(key, x, t[1..]);
        forall i | 0 <= i < |[x] + t[1..]|
          ensures key(([x] + t[1..])[i]) != key(t[0])
        {
          if i > 0 {
            assert ([x] + t[1..])[i] == t[1..][i - 1];
          }
        }
      }
      KeyAbsentPermuted(key, t[0], [x] + t[1..], rest);
      ConsDistinct(key, t[0], rest);
    }
  }

  /** Sorting keeps distinct keys distinct. */
  lemma {:induction false} SortDescDistinct<T>(k1: T -> real, k2: T -> real, key: T -> string, s: seq<T>)
    requires DistinctBy(key, s)
    ensures DistinctBy(key, SortDesc(k1, k2, s))
    decreases |s|
  {
    if |s| > 0 {
      var t := SortDesc(k1, k2, s[1..]);
      assert s == [s[0]] + s[1..];
      ConsDistinct(key, s[0], s[1..]);
      SortDescDistinct(k1, k2, key, s[1..]);
      SortDescCorrect(k1, k2, s[1..]);
      KeyAbsentPermuted(key, s[0], s[1..], t);
      ConsDistinct(key, s[0], t);
      InsertDistinct(k1, k2, key, s[0], t);
    }
  }

  lemma {:induction false} SumOfInsert<T>(k1: T -> real, k2: T -> real, f: T -> int, x: T, t: seq<T>)
    ensures SumOf(f, Insert(k1, k2, x, t)) == f(x) + SumOf(f, t)
    decreases |t|
  {
    if |t| > 0 && Precedes(k1, k2, t[0], x) {
      SumOfInsert(k1, k2, f, x, t[1..]);
      assert Insert(k1, k2, x, t)[1..] == Insert(k1, k2, x, t[1..]);
    } else {
      assert ([x] + t)[1..] == t;
    }
  }

  /** Sorting does not change a total. */
  lemma {:induction false} SortDescSum<T>(k1: T -> real, k2: T -> real, f: T -> int, s: seq<T>)
    ensures SumOf(f, SortDesc(k1, k2, s)) == SumOf(f, s)
    decreases |s|
  {
    if |s| > 0 {
      SortDescSum(k1, k2, f, s[1..]);
      SumOfInsert(k1, k2, f, s[0], SortDesc(k1, k2, s[1..]));
    }
  }

  /** `slice(0, n)` of a sorted sequence keeps its best elements: an element
      left out means n were kept, none of them preceded by it. */
  lemma TakeOfSorted<T>(k1: T -> real, k2: T -> real, s: seq<T>, n: nat, x: T)
    requires SortedDesc(k1, k2, s)
    requires x in s && x !in Take(s, n)
    ensures |Take(s, n)| == n
    ensures forall y :: y in Take(s, n) ==> !Precedes(k1, k2, x, y)
  {
    var m :| 0 <= m < |s| && s[m] == x;
    assert m >= n;
    forall y | y in Take(s, n)
      ensures !Precedes(k1, k2, x, y)
    {
      var i :| 0 <= i < |Take(s, n)| && Take(s, n)[i] == y;
      assert s[i] == y;
    }
  }
}

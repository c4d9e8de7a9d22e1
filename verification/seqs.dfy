/** Sequence helpers: the newest-first ordering the server and the client
    both apply with `list.sort((a, b) => date(b) - date(a))`, counting and
    summing. The sort is written as a stable insertion sort, which is what
    `Array.prototype.sort` guarantees since ES2019. */
module Seqs {

  /** Keys never increase from left to right. */
  predicate SortedDesc<T>(s: seq<T>, key: T -> int) {
    forall i, j :: 0 <= i < j < |s| ==> key(s[i]) >= key(s[j])
  }

  /** Places `x` before the first element whose key is not greater than its own. */
  function InsertDesc<T>(x: T, s: seq<T>, key: T -> int): (r: seq<T>)
    requires SortedDesc(s, key)
    ensures SortedDesc(r, key)
    ensures multiset(r) == multiset(s) + multiset{x}
    ensures |r| == |s| + 1
  {
    if s == [] || key(x) >= key(s[0]) then
      ConsSorted(x, s, key);
      [x] + s
    else
      var t := InsertDesc(x, s[1..], key);
      HeadBoundsInsertion(s, x, t, key);
      ConsSorted(s[0], t, key);
      assert s == [s[0]] + s[1..];
      [s[0]] + t
  }

  /** A head no smaller than every key of a sorted tail keeps the list sorted. */
  lemma ConsSorted<T>(h: T, t: seq<T>, key: T -> int)
    requires SortedDesc(t, key)
    requires t != [] ==> key(h) >= key(t[0])
    ensures SortedDesc([h] + t, key)
  {
    forall i, j | 0 <= i < j < |t| + 1
      ensures key(([h] + t)[i]) >= key(([h] + t)[j])
    {
      assert ([h] + t)[j] == t[j - 1];
      if i > 0 {
        assert ([h] + t)[i] == t[i - 1];
      }
    }
  }

  /** The head of a sorted list bounds every key of the tail with `x`
      inserted, when `x`'s key is below the head's. */
  lemma HeadBoundsInsertion<T>(s: seq<T>, x: T, t: seq<T>, key: T -> int)
    requires SortedDesc(s, key) && s != [] && key(x) < key(s[0])
    requires multiset(t) == multiset(s[1..]) + multiset{x}
    ensures t != [] ==> key(s[0]) >= key(t[0])
  {
    if t != [] {
      assert t[0] in multiset(t);
      if t[0] != x {
        assert t[0] in multiset(s[1..]);
        var k :| 1 <= k < |s| && s[k] == t[0];
      }
    }
  }

  /** The list ordered newest first: sorted by `key` descending and holding
      exactly the elements it was given. */
  function SortDesc<T>(s: seq<T>, key: T -> int): (r: seq<T>)
    ensures SortedDesc(r, key)
    ensures multiset(r) == multiset(s)
    ensures |r| == |s|
  {
    if s == [] then []
    else
      assert s == [s[0]] + s[1..];
      InsertDesc(s[0], SortDesc(s[1..], key), key)
  }

  /** Sorting an already sorted list changes nothing. */
  lemma {:induction false} SortDescOfSorted<T>(s: seq<T>, key: T -> int)
    requires SortedDesc(s, key)
    ensures SortDesc(s, key) == s
  {
    if s != [] {
      assert SortedDesc(s[1..], key);
      SortDescOfSorted(s[1..], key);
    }
  }

  /** Sorting is idempotent. */
  lemma SortDescIdempotent<T>(s: seq<T>, key: T -> int)
    ensures SortDesc(SortDesc(s, key), key) == SortDesc(s, key)
  {
    SortDescOfSorted(SortDesc(s, key), key);
  }

  /** Number of elements satisfying `p`. */
  function Count<T>(s: seq<T>, p: T -> bool): (n: nat)
    ensures n <= |s|
  {
    if s == [] then 0 else (if p(s[0]) then 1 else 0) + Count(s[1..], p)
  }

  lemma {:induction false} CountAppend<T>(a: seq<T>, b: seq<T>, p: T -> bool)
    ensures Count(a + b, p) == Count(a, p) + Count(b, p)
  {
    if a != [] {
      assert (a + b)[1..] == a[1..] + b;
      CountAppend(a[1..], b, p);
    } else {
      assert a + b == b;
    }
  }

  /** Finds the head of `a` inside its permutation `b`; what is left of both
      is again a pair of permutations. */
  lemma PermutationHead<T>(a: seq<T>, b: seq<T>) returns (i: nat)
    requires multiset(a) == multiset(b) && a != []
    ensures i < |b| && b[i] == a[0]
    ensures b == b[..i] + [a[0]] + b[i + 1..]
    ensures multiset(a[1..]) == multiset(b[..i] + b[i + 1..])
  {
    var x := a[0];
    assert x in multiset(b);
    i :| 0 <= i < |b| && b[i] == x;
    var rest := b[..i] + b[i + 1..];
    assert b == b[..i] + [x] + b[i + 1..];
    assert a == [x] + a[1..];
    assert multiset(b) == multiset(b[..i]) + multiset{x} + multiset(b[i + 1..]);
    assert multiset(a) == multiset{x} + multiset(a[1..]);
    assert multiset(rest) == multiset(b[..i]) + multiset(b[i + 1..]);
    assert multiset(a[1..]) == multiset(a) - multiset{x};
    assert multiset(b) - multiset{x} == multiset(rest);
  }

  /** Reordering a list does not change how many of its elements satisfy `p`. */
  lemma {:induction false} CountPermutation<T>(a: seq<T>, b: seq<T>, p: T -> bool)
    requires multiset(a) == multiset(b)
    ensures Count(a, p) == Count(b, p)
    decreases |a|
  {
    if a != [] {
      var i := PermutationHead(a, b);
      var x := a[0];
      CountPermutation(a[1..], b[..i] + b[i + 1..], p);
      CountAppend(b[..i], [x] + b[i + 1..], p);
      CountAppend([x], b[i + 1..], p);
      CountAppend(b[..i], b[i + 1..], p);
      assert [x][1..] == [];
      assert b[..i] + ([x] + b[i + 1..]) == b;
    } else {
      assert |b| == |multiset(b)| == 0;
    }
  }

  /** Sum of `f` over the list. */
  function SumReal<T>(s: seq<T>, f: T -> real): real {
    if s == [] then 0.0 else f(s[0]) + SumReal(s[1..], f)
  }

  lemma {:induction false} SumRealAppend<T>(a: seq<T>, b: seq<T>, f: T -> real)
    ensures SumReal(a + b, f) == SumReal(a, f) + SumReal(b, f)
  {
    if a != [] {
      assert (a + b)[1..] == a[1..] + b;
      SumRealAppend(a[1..], b, f);
    } else {
      assert a + b == b;
    }
  }

  /** Reordering a list does not change the sum over it. */
  lemma {:induction false} SumRealPermutation<T>(a: seq<T>, b: seq<T>, f: T -> real)
    requires multiset(a) == multiset(b)
    ensures SumReal(a, f) == SumReal(b, f)
    decreases |a|
  {
    if a != [] {
      var i := PermutationHead(a, b);
      var x := a[0];
      SumRealPermutation(a[1..], b[..i] + b[i + 1..], f);
      SumRealAppend(b[..i], [x] + b[i + 1..], f);
      SumRealAppend([x], b[i + 1..], f);
      SumRealAppend(b[..i], b[i + 1..], f);
      assert [x][1..] == [];
      assert b[..i] + ([x] + b[i + 1..]) == b;
    } else {
      assert |b| == |multiset(b)| == 0;
    }
  }

  /** A sum of terms each at least `c` is at least `|s| * c`. */
  lemma {:induction false} SumRealAtLeast<T>(s: seq<T>, f: T -> real, c: real)
    requires forall k :: 0 <= k < |s| ==> f(s[k]) >= c
    ensures SumReal(s, f) >= |s| as real * c
  {
    if s != [] {
      assert forall k :: 0 <= k < |s[1..]| ==> f(s[1..][k]) >= c by {
        forall k | 0 <= k < |s[1..]| ensures f(s[1..][k]) >= c {
          assert s[1..][k] == s[k + 1];
        }
      }
      SumRealAtLeast(s[1..], f, c);
    }
  }

  /** Sum of an integer sequence, accumulated left to right as
      `reduce((sum, x) => sum + x, 0)` and `forEach` loops do. */
  function SumInt(s: seq<int>): int {
    if s == [] then 0 else SumInt(s[..|s| - 1]) + s[|s| - 1]
  }

  /** No element occurs twice. */
  predicate Distinct<T(==)>(s: seq<T>) {
    forall i, j :: 0 <= i < j < |s| ==> s[i] != s[j]
  }

  /** A sum of terms each at least `c` is at least `|s| * c`. */
  lemma {:induction false} SumIntAtLeast(s: seq<int>, c: int)
    requires forall k :: 0 <= k < |s| ==> s[k] >= c
    ensures SumInt(s) >= |s| * c
  {
    if s != [] {
      SumIntAtLeast(s[..|s| - 1], c);
    }
  }

  /** No element satisfies `p`, so none is counted. */
  lemma {:induction false} CountNone<T>(s: seq<T>, p: T -> bool)
    requires forall k :: 0 <= k < |s| ==> !p(s[k])
    ensures Count(s, p) == 0
  {
    if s != [] {
      assert forall k :: 0 <= k < |s[1..]| ==> s[1..][k] == s[k + 1];
      CountNone(s[1..], p);
    }
  }
}

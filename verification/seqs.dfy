/**
 * Generic sequence operations standing for the JavaScript array methods the
 * tracker calls: `filter`, `indexOf` / `findIndex`, and order-preserving
 * subsequences.
 */
module Seqs {

  /** a can be obtained from b by deleting elements: b's order is kept. */
  predicate IsSubsequence<T(==)>(a: seq<T>, b: seq<T>)
    decreases |b|
  {
    if a == [] then true
    else if b == [] then false
    else if a[0] == b[0] then IsSubsequence(a[1..], b[1..])
    else IsSubsequence(a, b[1..])
  }

  /** `s.filter(keep)` */
  function Filter<T(!new)>(s: seq<T>, keep: T -> bool): (r: seq<T>)
    ensures |r| <= |s|
    ensures forall x :: x in r <==> x in s && keep(x)
    ensures forall i :: 0 <= i < |r| ==> keep(r[i])
  {
    if s == [] then [] else (if keep(s[0]) then [s[0]] else []) + Filter(s[1..], keep)
  }

  lemma {:induction false} FilterIsSubsequence<T(!new)>(s: seq<T>, keep: T -> bool)
    ensures IsSubsequence(Filter(s, keep), s)
    decreases |s|
  {
    if s != [] {
      FilterIsSubsequence(s[1..], keep);
      var r := Filter(s[1..], keep);
      if keep(s[0]) {
        assert ([s[0]] + r)[1..] == r;
      } else {
        assert [] + r == r;
        SubsequenceOfTail(r, s);
      }
    }
  }

  /** Every value kept occurs as often as in the input; every value dropped does not occur. */
  lemma {:induction false} FilterMultiset<T(!new)>(s: seq<T>, keep: T -> bool)
    ensures forall x :: multiset(Filter(s, keep))[x] == if keep(x) then multiset(s)[x] else 0
    decreases |s|
  {
    if s != [] {
      FilterMultiset(s[1..], keep);
      assert s == [s[0]] + s[1..];
      var r := Filter(s[1..], keep);
      assert Filter(s, keep) == (if keep(s[0]) then [s[0]] else []) + r;
    }
  }

  lemma {:induction false} SubsequenceRefl<T>(a: seq<T>)
    ensures IsSubsequence(a, a)
    decreases |a|
  {
    if a != [] {
      SubsequenceRefl(a[1..]);
    }
  }

  /** `splice(k, 1)`: deleting one position keeps the order of the rest. */
  lemma {:induction false} SpliceIsSubsequence<T>(s: seq<T>, k: nat)
    requires k < |s|
    ensures IsSubsequence(s[..k] + s[k + 1..], s)
    decreases k
  {
    if k == 0 {
      assert s[..0] + s[1..] == s[1..];
      SubsequenceRefl(s[1..]);
      SubsequenceOfTail(s[1..], s);
    } else {
      var t := s[1..];
      SpliceIsSubsequence(t, k - 1);
      var r := s[..k] + s[k + 1..];
      assert r[0] == s[0];
      assert r[1..] == t[..k - 1] + t[k..];
    }
  }

  lemma {:induction false} SubsequenceOfTail<T>(a: seq<T>, b: seq<T>)
    requires b != []
    requires IsSubsequence(a, b[1..])
    ensures IsSubsequence(a, b)
    decreases |b|, 0
  {
    if a != [] && a[0] == b[0] {
      DropHead(a, b[1..]);
    }
  }

  lemma {:induction false} DropHead<T>(a: seq<T>, b: seq<T>)
    requires a != [] && IsSubsequence(a, b)
    ensures IsSubsequence(a[1..], b)
    decreases |b|, 1
  {
    if a[0] == b[0] {
      SubsequenceOfTail(a[1..], b);
    } else {
      DropHead(a, b[1..]);
      SubsequenceOfTail(a[1..], b);
    }
  }

  /** Filtering a concatenation is filtering the parts. */
  lemma {:induction false} FilterConcat<T(!new)>(a: seq<T>, b: seq<T>, keep: T -> bool)
    ensures Filter(a + b, keep) == Filter(a, keep) + Filter(b, keep)
    decreases |a|
  {
    if a != [] {
      assert (a + b)[0] == a[0] && (a + b)[1..] == a[1..] + b;
      FilterConcat(a[1..], b, keep);
    } else {
      assert a + b == b;
    }
  }

  /** A filter that keeps everything returns its input. */
  lemma {:induction false} FilterAll<T(!new)>(s: seq<T>, keep: T -> bool)
    requires forall i :: 0 <= i < |s| ==> keep(s[i])
    ensures Filter(s, keep) == s
    decreases |s|
  {
    if s != [] {
      FilterAll(s[1..], keep);
    }
  }

  lemma {:induction false} FilterNone<T(!new)>(s: seq<T>, keep: T -> bool)
    requires forall i :: 0 <= i < |s| ==> !keep(s[i])
    ensures Filter(s, keep) == []
    decreases |s|
  {
    if s != [] {
      FilterNone(s[1..], keep);
    }
  }

  /** Two tests that agree on every element of s filter it alike. */
  lemma {:induction false} FilterExtensional<T(!new)>(s: seq<T>, f: T -> bool, g: T -> bool)
    requires forall i :: 0 <= i < |s| ==> f(s[i]) == g(s[i])
    ensures Filter(s, f) == Filter(s, g)
    decreases |s|
  {
    if s != [] {
      FilterExtensional(s[1..], f, g);
    }
  }

  /** Filtering a list with one more element at the end. */
  lemma FilterSnoc<T(!new)>(s: seq<T>, x: T, keep: T -> bool)
    ensures Filter(s + [x], keep) == Filter(s, keep) + (if keep(x) then [x] else [])
  {
    FilterConcat(s, [x], keep);
    assert Filter([x], keep) == (if keep(x) then [x] else []) + Filter([], keep);
  }

  /** Every element passes exactly one of a test and its negation. */
  lemma {:induction false} FilterSplitCount<T(!new)>(s: seq<T>, f: T -> bool, g: T -> bool)
    requires forall x :: g(x) == !f(x)
    ensures |Filter(s, f)| + |Filter(s, g)| == |s|
    decreases |s|
  {
    if s != [] {
      FilterSplitCount(s[1..], f, g);
    }
  }

  /** Two tests that never both hold keep at most |s| elements between them. */
  lemma {:induction false} FilterDisjointCount<T(!new)>(s: seq<T>, f: T -> bool, g: T -> bool)
    requires forall x :: !(f(x) && g(x))
    ensures |Filter(s, f)| + |Filter(s, g)| <= |s|
    decreases |s|
  {
    if s != [] {
      FilterDisjointCount(s[1..], f, g);
    }
  }

  /** A stronger test keeps no more elements. */
  lemma {:induction false} FilterMonotoneCount<T(!new)>(s: seq<T>, f: T -> bool, g: T -> bool)
    requires forall x :: f(x) ==> g(x)
    ensures |Filter(s, f)| <= |Filter(s, g)|
    decreases |s|
  {
    if s != [] {
      FilterMonotoneCount(s[1..], f, g);
    }
  }

  /** `s.indexOf(x)`: the first position of x, or -1 when x does not occur. */
  function Find<T(==)>(s: seq<T>, x: T): (r: int)
    ensures -1 <= r < |s|
    ensures r == -1 <==> x !in s
    ensures r >= 0 ==> s[r] == x && x !in s[..r]
  {
    if |s| == 0 then -1
    else if s[0] == x then 0
    else
      var k := Find(s[1..], x);
      if k == -1 then -1
      else
        assert s[..k + 1] == [s[0]] + s[1..][..k];
        k + 1
  }

  /** The loop behind `indexOf` / `findIndex`. */
  method IndexOf<T(==)>(s: seq<T>, x: T) returns (r: int)
    ensures r == Find(s, x)
  {
    r := 0;
    while r < |s| && s[r] != x
      invariant 0 <= r <= |s|
      invariant x !in s[..r]
    {
      assert s[..r + 1] == s[..r] + [s[r]];
      r := r + 1;
    }
    if r == |s| {
      assert s[..r] == s;
      r := -1;
    }
    FindUnique(s, x, r);
  }

  /** Searching a list with one more element at the end. */
  lemma FindSnoc<T>(s: seq<T>, x: T, y: T)
    ensures Find(s + [x], y) == if y in s then Find(s, y) else if y == x then |s| else -1
  {
    var r := if y in s then Find(s, y) else if y == x then |s| else -1;
    if y in s {
      assert (s + [x])[..r] == s[..r];
    } else if y == x {
      assert (s + [x])[..r] == s;
    }
    FindUnique(s + [x], y, r);
  }

  lemma FindUnique<T>(s: seq<T>, x: T, r: int)
    requires -1 <= r < |s|
    requires r == -1 <==> x !in s
    requires r >= 0 ==> s[r] == x && x !in s[..r]
    ensures r == Find(s, x)
  {
  }
}

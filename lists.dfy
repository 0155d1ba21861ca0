/** List combinators the application uses everywhere: `Array.filter` with a
    predicate and `reduce` into a sum. */
module Lists {
  import opened Types

  /** `s.filter(p)`: the elements that satisfy `p`, in their original order. */
  function Filter<T>(s: seq<T>, p: T -> bool): (r: seq<T>)
    ensures |r| <= |s|
    ensures forall k :: 0 <= k < |r| ==> p(r[k])
  {
    if s == [] then [] else (if p(s[0]) then [s[0]] else []) + Filter(s[1..], p)
  }

  /** Filtering a concatenation filters each part: together with the
      one-element case this pins down the order of the result. */
  lemma {:induction false} FilterConcat<T>(a: seq<T>, b: seq<T>, p: T -> bool)
    ensures Filter(a + b, p) == Filter(a, p) + Filter(b, p)
    decreases |a|
  {
    if a == [] {
      assert a + b == b;
    } else {
      assert (a + b)[1..] == a[1..] + b;
      FilterConcat(a[1..], b, p);
    }
  }

  lemma FilterSingleton<T>(x: T, p: T -> bool)
    ensures Filter([x], p) == if p(x) then [x] else []
  {
    assert [x][1..] == [];
  }

  /** Every occurrence of an element is kept when it satisfies the predicate
      and dropped when it does not. */
  lemma {:induction false} FilterCount<T>(s: seq<T>, p: T -> bool, x: T)
    ensures multiset(Filter(s, p))[x] == if p(x) then multiset(s)[x] else 0
    decreases |s|
  {
    if s != [] {
      assert s == [s[0]] + s[1..];
      FilterCount(s[1..], p, x);
    }
  }

  lemma FilterMembership<T>(s: seq<T>, p: T -> bool, x: T)
    ensures x in Filter(s, p) <==> x in s && p(x)
  {
    FilterCount(s, p, x);
    assert x in Filter(s, p) <==> x in multiset(Filter(s, p));
    assert x in s <==> x in multiset(s);
  }

  /** A filter that every element passes returns its input. */
  lemma {:induction false} FilterKeepsAll<T>(s: seq<T>, p: T -> bool)
    requires forall k :: 0 <= k < |s| ==> p(s[k])
    ensures Filter(s, p) == s
    decreases |s|
  {
    if s != [] {
      FilterKeepsAll(s[1..], p);
    }
  }

  /** Two filters in a row are one filter by the conjunction. */
  lemma {:induction false} FilterFilter<T>(s: seq<T>, p: T -> bool, q: T -> bool, pq: T -> bool)
    requires forall x :: pq(x) == (p(x) && q(x))
    ensures Filter(Filter(s, p), q) == Filter(s, pq)
    decreases |s|
  {
    if s != [] {
      var head := if p(s[0]) then [s[0]] else [];
      FilterConcat(head, Filter(s[1..], p), q);
      if p(s[0]) {
        FilterSingleton(s[0], q);
      }
      FilterFilter(s[1..], p, q, pq);
    }
  }

  /** Two filters by complementary predicates split the sequence between them. */
  lemma {:induction false} FilterComplement<T>(s: seq<T>, p: T -> bool, q: T -> bool)
    requires forall x :: q(x) == !p(x)
    ensures |Filter(s, p)| + |Filter(s, q)| == |s|
    decreases |s|
  {
    if s != [] {
      FilterComplement(s[1..], p, q);
    }
  }

  /** A filter by the union of two disjoint predicates keeps as many
      elements as the two filters together. */
  lemma {:induction false} FilterDisjointUnion<T>(s: seq<T>, p: T -> bool, r: T -> bool, q: T -> bool)
    requires forall x :: q(x) == (p(x) || r(x))
    requires forall x :: !(p(x) && r(x))
    ensures |Filter(s, q)| == |Filter(s, p)| + |Filter(s, r)|
    decreases |s|
  {
    if s != [] {
      FilterDisjointUnion(s[1..], p, r, q);
    }
  }

  /** The index `s.findIndex(p)` reports: the first element satisfying `p`. */
  function FirstIndex<T>(s: seq<T>, p: T -> bool): (r: Option<nat>)
    ensures r.Some? ==> r.value < |s| && p(s[r.value]) && forall j :: 0 <= j < r.value ==> !p(s[j])
    ensures r.None? ==> forall j :: 0 <= j < |s| ==> !p(s[j])
  {
    if s == [] then None
    else if p(s[0]) then Some(0)
    else match FirstIndex(s[1..], p)
      case None => None
      case Some(k) => Some(k + 1)
  }

  /** `s.find(p)`: the first element satisfying `p`, if any. */
  function Find<T>(s: seq<T>, p: T -> bool): (r: Option<T>)
    ensures r.Some? ==> r.value in s && p(r.value)
    ensures r.None? ==> forall j :: 0 <= j < |s| ==> !p(s[j])
  {
    match FirstIndex(s, p)
    case None => None
    case Some(k) => Some(s[k])
  }

  /** `find` looks at the head first and otherwise searches the tail. */
  lemma FindCons<T>(s: seq<T>, p: T -> bool)
    requires s != []
    ensures Find(s, p) == if p(s[0]) then Some(s[0]) else Find(s[1..], p)
  {
    if !p(s[0]) {
      match FirstIndex(s[1..], p)
      case None =>
      case Some(k) => assert s[k + 1] == s[1..][k];
    }
  }

  /** The first match is found again after elements are appended. */
  lemma FindAppend<T>(s: seq<T>, t: seq<T>, p: T -> bool)
    ensures Find(s + t, p) == if Find(s, p).Some? then Find(s, p) else Find(t, p)
  {
    FirstIndexAppend(s, t, p);
  }

  lemma {:induction false} FirstIndexAppend<T>(s: seq<T>, t: seq<T>, p: T -> bool)
    ensures FirstIndex(s + t, p) ==
      match FirstIndex(s, p)
      case Some(k) => Some(k)
      case None => (match FirstIndex(t, p) case None => None case Some(k) => Some(|s| + k))
    decreases |s|
  {
    if s == [] {
      assert s + t == t;
    } else {
      assert (s + t)[1..] == s[1..] + t;
      FirstIndexAppend(s[1..], t, p);
    }
  }

  /** The sum of `f` over the elements, as a left fold from 0. */
  function SumOf<T>(s: seq<T>, f: T -> int): int {
    if s == [] then 0 else f(s[0]) + SumOf(s[1..], f)
  }

  lemma {:induction false} SumOfConcat<T>(a: seq<T>, b: seq<T>, f: T -> int)
    ensures SumOf(a + b, f) == SumOf(a, f) + SumOf(b, f)
    decreases |a|
  {
    if a == [] {
      assert a + b == b;
    } else {
      assert (a + b)[1..] == a[1..] + b;
      SumOfConcat(a[1..], b, f);
    }
  }

  lemma SumOfSingleton<T>(x: T, f: T -> int)
    ensures SumOf([x], f) == f(x)
  {
    assert [x][1..] == [];
  }

  /** A sum of pointwise sums is the sum of the two sums. */
  lemma {:induction false} SumOfAdd<T>(s: seq<T>, f: T -> int, g: T -> int, h: T -> int)
    requires forall x :: h(x) == f(x) + g(x)
    ensures SumOf(s, h) == SumOf(s, f) + SumOf(s, g)
    decreases |s|
  {
    if s != [] {
      SumOfAdd(s[1..], f, g, h);
    }
  }

  /** No element occurs twice. */
  predicate Distinct<T(==)>(s: seq<T>) {
    forall i, j :: 0 <= i < j < |s| ==> s[i] != s[j]
  }

  /** Over distinct elements, a function that is `d` at one point and zero
      elsewhere sums to `d` when that point occurs, and to zero otherwise. */
  lemma {:induction false} SumOfIndicator<T>(s: seq<T>, x0: T, d: int, g: T -> int)
    requires Distinct(s)
    requires forall x :: g(x) == if x == x0 then d else 0
    ensures SumOf(s, g) == if x0 in s then d else 0
    decreases |s|
  {
    if s != [] {
      assert Distinct(s[1..]) by {
        forall i, j | 0 <= i < j < |s[1..]| ensures s[1..][i] != s[1..][j] {
          assert s[1..][i] == s[i + 1] && s[1..][j] == s[j + 1];
        }
      }
      SumOfIndicator(s[1..], x0, d, g);
      if s[0] == x0 {
        assert x0 !in s[1..] by {
          forall j | 0 <= j < |s[1..]| ensures s[1..][j] != x0 {
            assert s[1..][j] == s[j + 1];
          }
        }
      }
    }
  }
}

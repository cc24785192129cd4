/**
 * The JavaScript array built-ins the site relies on, over immutable sequences:
 * `filter`, `findIndex` and `find`. `filter` is characterised independently
 * of its definition: its result is a subsequence of the input (order is kept)
 * holding every element that passes the test as often as the input does and
 * no other element; `FilterUnique` shows that this pins the result down.
 */
module JsArray {
  import opened Wrappers

  /** `s.filter(f)`. */
  function Filter<T>(s: seq<T>, f: T -> bool): (r: seq<T>)
    ensures |r| <= |s|
  {
    if s == [] then []
    else (if f(s[0]) then [s[0]] else []) + Filter(s[1..], f)
  }

  /** `a` can be obtained from `b` by deleting elements (greedy matching from the left). */
  ghost predicate IsSubsequence<T>(a: seq<T>, b: seq<T>) {
    if a == [] then true
    else if b == [] then false
    else if a[0] == b[0] then IsSubsequence(a[1..], b[1..])
    else IsSubsequence(a, b[1..])
  }

  /** Each value occurs in the filtered list exactly as often as in the input if it passes, never otherwise. */
  lemma {:induction false} FilterCount<T>(s: seq<T>, f: T -> bool, x: T)
    ensures multiset(Filter(s, f))[x] == if f(x) then multiset(s)[x] else 0
  {
    if s != [] {
      FilterCount(s[1..], f, x);
      var head := if f(s[0]) then [s[0]] else [];
      assert Filter(s, f) == head + Filter(s[1..], f);
      assert multiset(Filter(s, f)) == multiset(head) + multiset(Filter(s[1..], f));
      assert s == [s[0]] + s[1..];
      assert multiset(s) == multiset([s[0]]) + multiset(s[1..]);
    }
  }

  /** Soundness and completeness of `filter`: a value is kept iff it occurs in the input and passes. */
  lemma FilterMembership<T>(s: seq<T>, f: T -> bool, x: T)
    ensures x in Filter(s, f) <==> x in s && f(x)
  {
    FilterCount(s, f, x);
  }

  /** `filter` keeps the input order. */
  lemma {:induction false} FilterIsSubsequence<T>(s: seq<T>, f: T -> bool)
    ensures IsSubsequence(Filter(s, f), s)
  {
    if s != [] {
      FilterIsSubsequence(s[1..], f);
      if f(s[0]) {
        assert Filter(s, f) == [s[0]] + Filter(s[1..], f);
      } else {
        assert Filter(s, f) == Filter(s[1..], f);
        if Filter(s, f) != [] {
          FilterMembership(s[1..], f, Filter(s, f)[0]);
        }
      }
    }
  }

  /** A subsequence never holds a value more often than the sequence it was taken from. */
  lemma {:induction false} SubsequenceMultiset<T>(a: seq<T>, b: seq<T>)
    requires IsSubsequence(a, b)
    ensures multiset(a) <= multiset(b)
    decreases |b|
  {
    if a != [] {
      assert b == [b[0]] + b[1..];
      if a[0] == b[0] {
        SubsequenceMultiset(a[1..], b[1..]);
        assert a == [a[0]] + a[1..];
      } else {
        SubsequenceMultiset(a, b[1..]);
      }
    }
  }

  /** The result of `filter` is the only subsequence of the input with the filter's counts. */
  lemma {:induction false} FilterUnique<T>(s: seq<T>, f: T -> bool, r: seq<T>)
    requires IsSubsequence(r, s)
    requires forall x :: multiset(r)[x] == if f(x) then multiset(s)[x] else 0
    ensures r == Filter(s, f)
    decreases |s|
  {
    if s == [] {
      return;
    }
    var a, t := s[0], s[1..];
    assert s == [a] + t;
    if r != [] && r[0] == a {
      assert r == [a] + r[1..];
      assert f(a) by {
        assert multiset(r)[a] > 0;
      }
      forall x ensures multiset(r[1..])[x] == if f(x) then multiset(t)[x] else 0 {
      }
      FilterUnique(t, f, r[1..]);
    } else {
      assert IsSubsequence(r, t);
      SubsequenceMultiset(r, t);
      assert !f(a);
      forall x ensures multiset(r)[x] == if f(x) then multiset(t)[x] else 0 {
        if f(x) {
          assert x != a;
        }
      }
      FilterUnique(t, f, r);
    }
  }

  /** Everything `filter` promises, in one place: order kept, exactly the passing elements, as often as in the input. */
  lemma FilterSpec<T>(s: seq<T>, f: T -> bool)
    ensures IsSubsequence(Filter(s, f), s)
    ensures forall x :: multiset(Filter(s, f))[x] == if f(x) then multiset(s)[x] else 0
    ensures forall x :: x in Filter(s, f) <==> x in s && f(x)
  {
    FilterIsSubsequence(s, f);
    forall x ensures multiset(Filter(s, f))[x] == if f(x) then multiset(s)[x] else 0 {
      FilterCount(s, f, x);
    }
  }

  /** `filter` distributes over concatenation. */
  lemma {:induction false} FilterAppend<T>(a: seq<T>, b: seq<T>, f: T -> bool)
    ensures Filter(a + b, f) == Filter(a, f) + Filter(b, f)
  {
    if a != [] {
      FilterAppend(a[1..], b, f);
      var head := if f(a[0]) then [a[0]] else [];
      assert (a + b)[0] == a[0];
      assert (a + b)[1..] == a[1..] + b;
      calc {
        Filter(a + b, f);
        head + Filter(a[1..] + b, f);
        head + (Filter(a[1..], f) + Filter(b, f));
        (head + Filter(a[1..], f)) + Filter(b, f);
      }
    } else {
      assert a + b == b;
    }
  }

  /** Filtering one more element of a prefix appends that element if it passes. */
  lemma FilterPrefixStep<T>(s: seq<T>, f: T -> bool, i: nat)
    requires i < |s|
    ensures Filter(s[..i + 1], f) == Filter(s[..i], f) + (if f(s[i]) then [s[i]] else [])
  {
    assert s[..i + 1] == s[..i] + [s[i]];
    FilterAppend(s[..i], [s[i]], f);
  }

  /** Filtering twice is filtering once by the conjunction of the two tests. */
  lemma {:induction false} FilterFusion<T>(s: seq<T>, f: T -> bool, g: T -> bool, h: T -> bool)
    requires forall x :: h(x) == (f(x) && g(x))
    ensures Filter(Filter(s, f), g) == Filter(s, h)
  {
    if s != [] {
      FilterFusion(s[1..], f, g, h);
      assert h(s[0]) == (f(s[0]) && g(s[0]));
      var fs := Filter(s, f);
      if f(s[0]) {
        assert fs == [s[0]] + Filter(s[1..], f);
        assert fs[0] == s[0] && fs[1..] == Filter(s[1..], f);
        assert Filter(fs, g) == (if g(s[0]) then [s[0]] else []) + Filter(fs[1..], g);
      } else {
        assert fs == Filter(s[1..], f);
      }
    }
  }

  /** Tests that agree on every value filter alike. */
  lemma {:induction false} FilterCongruent<T>(s: seq<T>, f: T -> bool, g: T -> bool)
    requires forall x :: f(x) == g(x)
    ensures Filter(s, f) == Filter(s, g)
  {
    if s != [] {
      FilterCongruent(s[1..], f, g);
    }
  }

  /** Every element lands in exactly one of a filter and its complement. */
  lemma {:induction false} FilterPartition<T>(s: seq<T>, f: T -> bool, g: T -> bool)
    requires forall x :: g(x) == !f(x)
    ensures multiset(Filter(s, f)) + multiset(Filter(s, g)) == multiset(s)
    ensures |Filter(s, f)| + |Filter(s, g)| == |s|
  {
    if s != [] {
      FilterPartition(s[1..], f, g);
      assert s == [s[0]] + s[1..];
    }
  }

  /** A test every element passes keeps the whole input. */
  lemma {:induction false} FilterAll<T>(s: seq<T>, f: T -> bool)
    requires forall i :: 0 <= i < |s| ==> f(s[i])
    ensures Filter(s, f) == s
  {
    if s != [] {
      FilterAll(s[1..], f);
    }
  }

  /** `s.findIndex(f)`: the first index whose element passes, or -1. */
  function FindIndex<T>(s: seq<T>, f: T -> bool): (r: int)
    ensures -1 <= r < |s|
    ensures 0 <= r ==> f(s[r]) && forall j :: 0 <= j < r ==> !f(s[j])
    ensures r == -1 <==> forall j :: 0 <= j < |s| ==> !f(s[j])
  {
    if s == [] then -1
    else if f(s[0]) then 0
    else
      var k := FindIndex(s[1..], f);
      if k == -1 then -1 else k + 1
  }

  /** `s.find(f)`: the first element that passes, or `undefined`. */
  function Find<T>(s: seq<T>, f: T -> bool): (r: Option<T>)
    ensures r.None? <==> forall j :: 0 <= j < |s| ==> !f(s[j])
    ensures r.Some? ==> exists i :: 0 <= i < |s| && s[i] == r.value && f(s[i]) && forall j :: 0 <= j < i ==> !f(s[j])
  {
    var k := FindIndex(s, f);
    if k < 0 then None else Some(s[k])
  }

  /** `find` returns the element at the first index that passes. */
  lemma FindFirst<T>(s: seq<T>, f: T -> bool, i: int)
    requires 0 <= i < |s| && f(s[i])
    requires forall j :: 0 <= j < i ==> !f(s[j])
    ensures FindIndex(s, f) == i
    ensures Find(s, f) == Some(s[i])
  {
    var k := FindIndex(s, f);
    assert k != -1;
    assert !(k < i);
    assert !(i < k);
  }
}

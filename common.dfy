/** Shared vocabulary of the model: optional values, results, and the few
    rules of Python values that the modelled code relies on (truthiness of
    strings and ids, the slice s[:n], list filtering). */
module Common {

  /** A nullable column, a missing dict key, or an absent argument. */
  datatype Option<+T> = None | Some(value: T)

  /** An operation that either returns a value or raises. */
  datatype Result<+T, +E> = Ok(value: T) | Err(error: E)

  /** A nullable string is truthy when it is present and non-empty. */
  predicate Filled(s: Option<string>) {
    s.Some? && s.value != ""
  }

  /** A nullable integer id is truthy when it is present and not zero. */
  predicate IdGiven(id: Option<nat>) {
    id.Some? && id.value != 0
  }

  /** Python's slice s[:n]: for n >= 0 the first n elements (all of s when it
      is shorter); for n < 0 everything but the last -n elements. */
  function Prefix<T>(s: seq<T>, n: int): (r: seq<T>)
    ensures r <= s
    ensures 0 <= n ==> |r| == (if n <= |s| then n else |s|)
    ensures n < 0 ==> |r| == (if -n <= |s| then |s| + n else 0)
  {
    if 0 <= n then
      (if n <= |s| then s[..n] else s)
    else
      (if -n <= |s| then s[..|s| + n] else [])
  }

  /** Cutting at n and then at a smaller k is cutting at k. */
  lemma PrefixOfPrefix<T>(s: seq<T>, n: int, k: int)
    requires 0 <= k <= n
    ensures Prefix(Prefix(s, n), k) == Prefix(s, k)
  {
    var p := Prefix(s, n);
    if k <= |p| {
      assert Prefix(p, k) == p[..k];
      assert Prefix(s, k) == s[..k];
    } else {
      assert |p| == |s|;
    }
  }

  /** The elements of s that satisfy keep, in their original order (a list
      comprehension with an `if`). */
  function Filter<T>(s: seq<T>, keep: T -> bool): (r: seq<T>)
    ensures |r| <= |s|
    decreases |s|
  {
    if s == [] then []
    else Filter(s[..|s| - 1], keep) + (if keep(s[|s| - 1]) then [s[|s| - 1]] else [])
  }

  /** An element survives filtering exactly when it is in s and passes the test. */
  lemma {:induction false} FilterMembership<T>(s: seq<T>, keep: T -> bool, x: T)
    ensures x in Filter(s, keep) <==> x in s && keep(x)
    decreases |s|
  {
    if s != [] {
      var init, last := s[..|s| - 1], s[|s| - 1];
      FilterMembership(init, keep, x);
      assert s == init + [last];
      assert x in s <==> x in init || x == last;
    }
  }

  /** Filtering distributes over concatenation. */
  lemma {:induction false} FilterAppend<T>(a: seq<T>, b: seq<T>, keep: T -> bool)
    ensures Filter(a + b, keep) == Filter(a, keep) + Filter(b, keep)
    decreases |b|
  {
    if b == [] {
      assert a + b == a;
    } else {
      var b' := b[..|b| - 1];
      assert (a + b)[..|a + b| - 1] == a + b';
      assert (a + b)[|a + b| - 1] == b[|b| - 1];
      FilterAppend(a, b', keep);
    }
  }

  /** Keeping by a test and keeping by its negation split a sequence into two parts whose
      multisets add up to the whole. */
  lemma {:induction false} FilterSplitsMultiset<T>(s: seq<T>, keep: T -> bool, drop: T -> bool)
    requires forall x :: drop(x) == !keep(x)
    ensures multiset(Filter(s, keep)) + multiset(Filter(s, drop)) == multiset(s)
    decreases |s|
  {
    if s != [] {
      var init, last := s[..|s| - 1], s[|s| - 1];
      FilterSplitsMultiset(init, keep, drop);
      var k, d := Filter(init, keep), Filter(init, drop);
      assert multiset(s) == multiset(init) + multiset{last} by {
        assert s == init + [last];
      }
      if keep(last) {
        assert Filter(s, keep) == k + [last];
        assert Filter(s, drop) == d;
        assert multiset(k + [last]) == multiset(k) + multiset{last};
      } else {
        assert Filter(s, keep) == k;
        assert Filter(s, drop) == d + [last];
        assert multiset(d + [last]) == multiset(d) + multiset{last};
      }
    }
  }

  /** Appending one element appends it to the filtered sequence when it
      passes the test. */
  lemma FilterSnoc<T>(s: seq<T>, x: T, keep: T -> bool)
    ensures Filter(s + [x], keep) == Filter(s, keep) + (if keep(x) then [x] else [])
  {
    assert (s + [x])[..|s + [x]| - 1] == s;
  }

  /** Every element of a filtered sequence passes the test. */
  lemma {:induction false} FilterPasses<T>(s: seq<T>, keep: T -> bool)
    ensures forall k :: 0 <= k < |Filter(s, keep)| ==> keep(Filter(s, keep)[k])
    decreases |s|
  {
    if s != [] {
      FilterPasses(s[..|s| - 1], keep);
    }
  }

  /** Filtering twice by the same test is filtering once. */
  lemma {:induction false} FilterIdempotent<T>(s: seq<T>, keep: T -> bool)
    ensures Filter(Filter(s, keep), keep) == Filter(s, keep)
    decreases |s|
  {
    if s != [] {
      var init, last := s[..|s| - 1], s[|s| - 1];
      FilterIdempotent(init, keep);
      assert s == init + [last];
      FilterSnoc(init, last, keep);
      if keep(last) {
        FilterSnoc(Filter(init, keep), last, keep);
        assert Filter(s, keep) == Filter(init, keep) + [last];
        assert Filter(Filter(s, keep), keep) == Filter(Filter(init, keep), keep) + [last];
      } else {
        assert Filter(s, keep) == Filter(init, keep);
      }
    }
  }

  /** Filtering by a test and then by its negation leaves nothing. */
  lemma {:induction false} FilterDisjoint<T>(s: seq<T>, keep: T -> bool, drop: T -> bool)
    requires forall x :: drop(x) == !keep(x)
    ensures Filter(Filter(s, keep), drop) == []
    decreases |s|
  {
    if s != [] {
      var init, last := s[..|s| - 1], s[|s| - 1];
      FilterDisjoint(init, keep, drop);
      assert s == init + [last];
      FilterSnoc(init, last, keep);
      if keep(last) {
        FilterSnoc(Filter(init, keep), last, drop);
        assert !drop(last);
        assert Filter(s, keep) == Filter(init, keep) + [last];
      } else {
        assert Filter(s, keep) == Filter(init, keep);
      }
    }
  }
}

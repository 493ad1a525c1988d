/** Sequence helpers shared by the queues, the held-resource lists and the
    resource ledger. */
module Seqs {

  predicate Distinct<T(==)>(s: seq<T>) {
    forall i, j :: 0 <= i < j < |s| ==> s[i] != s[j]
  }

  /** Unlinks the first element equal to `x`, as a walk down a singly linked
      list does; a list without `x` is returned unchanged. */
  function Remove<T(==)>(s: seq<T>, x: T): (r: seq<T>)
    ensures x !in s ==> r == s
    ensures multiset(r) == multiset(s) - multiset{x}
  {
    if s == [] then []
    else if s[0] == x then
      assert s == [s[0]] + s[1..];
      assert multiset(s) == multiset{x} + multiset(s[1..]);
      s[1..]
    else
      var t := Remove(s[1..], x);
      assert s == [s[0]] + s[1..];
      RemoveStepCount(s, x, t);
      [s[0]] + t
  }

  /** The element unlinked is the first occurrence: everything before it and
      everything after it stays, in order. */
  lemma {:induction false} RemoveFirst<T>(p: seq<T>, x: T, q: seq<T>)
    requires x !in p
    ensures Remove(p + ([x] + q), x) == p + q
  {
    if p == [] {
      assert p + ([x] + q) == [x] + q;
      assert ([x] + q)[1..] == q;
    } else {
      RemoveFirstStep(p, x, q);
      RemoveFirst(p[1..], x, q);
    }
  }

  lemma RemoveFirstStep<T>(p: seq<T>, x: T, q: seq<T>)
    requires p != [] && x !in p
    ensures Remove(p + ([x] + q), x) == [p[0]] + Remove(p[1..] + ([x] + q), x)
    ensures p + q == [p[0]] + (p[1..] + q)
  {
    var s := p + ([x] + q);
    assert s[0] == p[0] && s[1..] == p[1..] + ([x] + q);
    assert p == [p[0]] + p[1..];
    AppendAssoc([p[0]], p[1..], q);
  }

  lemma RemoveStepCount<T>(s: seq<T>, x: T, t: seq<T>)
    requires s != [] && s[0] != x
    requires multiset(t) == multiset(s[1..]) - multiset{x}
    ensures multiset([s[0]] + t) == multiset(s) - multiset{x}
  {
    assert s == [s[0]] + s[1..];
    assert multiset(s) == multiset{s[0]} + multiset(s[1..]);
  }

  lemma AppendAssoc<T>(a: seq<T>, b: seq<T>, c: seq<T>)
    ensures (a + b) + c == a + (b + c)
  {
  }

  /** Unlinking a present element takes exactly one copy of it away. */
  lemma RemoveCount<T>(s: seq<T>, x: T)
    requires x in s
    ensures multiset(Remove(s, x)) + multiset{x} == multiset(s)
  {
    assert x in multiset(s);
  }

  /** In a list without repetitions the removed element is gone for good. */
  lemma RemoveDistinct<T>(s: seq<T>, x: T)
    requires Distinct(s)
    ensures x !in Remove(s, x)
    ensures Distinct(Remove(s, x))
  {
    var m := multiset(s);
    assert forall y :: m[y] <= 1 by {
      DistinctCounts(s);
    }
    CountsDistinct(Remove(s, x));
  }

  /** Distinct lists are those in which every element occurs at most once. */
  lemma {:induction false} DistinctCounts<T>(s: seq<T>)
    requires Distinct(s)
    ensures forall y :: multiset(s)[y] <= 1
  {
    if s != [] {
      assert s == [s[0]] + s[1..];
      assert Distinct(s[1..]);
      DistinctCounts(s[1..]);
      assert s[0] !in s[1..];
    }
  }

  lemma {:induction false} CountsDistinct<T>(s: seq<T>)
    requires forall y :: multiset(s)[y] <= 1
    ensures Distinct(s)
  {
    if s != [] {
      assert s == [s[0]] + s[1..];
      assert multiset(s) == multiset{s[0]} + multiset(s[1..]);
      forall y
        ensures multiset(s[1..])[y] <= 1
      {
        assert multiset(s)[y] >= multiset(s[1..])[y];
      }
      CountsDistinct(s[1..]);
      assert s[0] !in s[1..] by {
        assert multiset(s)[s[0]] == 1 + multiset(s[1..])[s[0]];
      }
      forall i, j | 0 <= i < j < |s|
        ensures s[i] != s[j]
      {
        if i == 0 {
          assert s[j] == s[1..][j - 1];
        } else {
          assert s[i] == s[1..][i - 1] && s[j] == s[1..][j - 1];
        }
      }
    }
  }

  /** Unlinking never adds an element. */
  lemma RemoveIn<T>(s: seq<T>, x: T, y: T)
    requires y in Remove(s, x)
    ensures y in s && (Distinct(s) ==> y != x)
  {
    assert y in multiset(Remove(s, x));
    if Distinct(s) {
      RemoveDistinct(s, x);
    }
  }

  /** Unlinking an element that occurs before the appended tail leaves the
      tail last. */
  lemma {:induction false} RemoveBeforeTail<T>(s: seq<T>, x: T, y: T)
    requires x in s
    ensures Remove(s + [y], x) == Remove(s, x) + [y]
  {
    if s[0] != x {
      assert (s + [y])[1..] == s[1..] + [y];
      RemoveBeforeTail(s[1..], x, y);
      assert Remove(s + [y], x) == [s[0]] + Remove((s + [y])[1..], x);
      AppendAssoc([s[0]], Remove(s[1..], x), [y]);
    } else {
      assert (s + [y])[1..] == s[1..] + [y];
    }
  }
}

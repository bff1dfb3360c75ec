/** Array.prototype.filter, and what it keeps. */
module Sequences {

  function Filter<T>(keep: T -> bool, s: seq<T>): seq<T> {
    if s == [] then []
    else if keep(s[0]) then [s[0]] + Filter(keep, s[1..])
    else Filter(keep, s[1..])
  }

  lemma FilterMembers<T>(keep: T -> bool, s: seq<T>, x: T)
    ensures x in Filter(keep, s) <==> x in s && keep(x)
  {
  }

  lemma {:induction false} FilterCounts<T>(keep: T -> bool, s: seq<T>, x: T)
    ensures multiset(Filter(keep, s))[x] == if keep(x) then multiset(s)[x] else 0
  {
    if s != [] {
      FilterCounts(keep, s[1..], x);
      assert s == [s[0]] + s[1..];
    }
  }

  lemma {:induction false} SameFilter<T>(p: T -> bool, q: T -> bool, s: seq<T>)
    requires forall x :: x in s ==> (p(x) <==> q(x))
    ensures Filter(p, s) == Filter(q, s)
  {
    if s != [] {
      SameFilter(p, q, s[1..]);
    }
  }

  /** Filtering again narrows the condition. */
  lemma {:induction false} FilterTwice<T>(p: T -> bool, q: T -> bool, both: T -> bool, s: seq<T>)
    requires forall x :: x in s ==> (both(x) <==> p(x) && q(x))
    ensures Filter(q, Filter(p, s)) == Filter(both, s)
  {
    if s != [] {
      FilterTwice(p, q, both, s[1..]);
      if p(s[0]) {
        assert Filter(p, s)[1..] == Filter(p, s[1..]);
      }
    }
  }

  /** A relation holds between each element and all later ones. */
  ghost predicate Pairwise<T>(r: (T, T) -> bool, s: seq<T>) {
    forall i, j :: 0 <= i < j < |s| ==> r(s[i], s[j])
  }

  lemma PairwiseCons<T>(r: (T, T) -> bool, x: T, s: seq<T>)
    ensures Pairwise(r, [x] + s) <==> Pairwise(r, s) && forall y :: y in s ==> r(x, y)
  {
    var all := [x] + s;
    if Pairwise(r, all) {
      forall y | y in s ensures r(x, y) {
        var k :| 0 <= k < |s| && s[k] == y;
        assert r(all[0], all[k + 1]);
      }
      forall i, j | 0 <= i < j < |s| ensures r(s[i], s[j]) {
        assert r(all[i + 1], all[j + 1]);
      }
    }
  }

  lemma {:induction false} FilterPairwise<T>(r: (T, T) -> bool, keep: T -> bool, s: seq<T>)
    requires Pairwise(r, s)
    ensures Pairwise(r, Filter(keep, s))
  {
    hide Pairwise;
    if s == [] {
      assert Filter(keep, s) == s;
    } else {
      assert s == [s[0]] + s[1..];
      PairwiseCons(r, s[0], s[1..]);
      FilterPairwise(r, keep, s[1..]);
      PairwiseCons(r, s[0], Filter(keep, s[1..]));
      forall y | y in Filter(keep, s[1..]) ensures y in s[1..] {
        FilterMembers(keep, s[1..], y);
      }
    }
  }

  /** The order stays. */
  lemma {:induction false} FilterConcat<T>(keep: T -> bool, s: seq<T>, t: seq<T>)
    ensures Filter(keep, s + t) == Filter(keep, s) + Filter(keep, t)
  {
    if s == [] {
      assert s + t == t;
    } else {
      FilterConcat(keep, s[1..], t);
      assert (s + t)[1..] == s[1..] + t;
    }
  }

  /** Where the condition is met. */
  ghost function Places<T>(keep: T -> bool, s: seq<T>): set<nat> {
    set i: nat | i < |s| && keep(s[i])
  }

  /** As many are kept as there are places that meet the condition. */
  lemma {:induction false} FilterSize<T>(keep: T -> bool, s: seq<T>)
    ensures |Filter(keep, s)| == |Places(keep, s)|
  {
    var places := Places(keep, s);
    if s == [] {
      assert places == {};
    } else {
      var n := |s| - 1;
      var before, last := s[..n], s[n];
      FilterSize(keep, before);
      FilterConcat(keep, before, [last]);
      assert s == before + [last];
      var earlier := Places(keep, before);
      assert places == if keep(last) then earlier + {n} else earlier;
    }
  }

  lemma {:induction false} FilterAll<T>(keep: T -> bool, s: seq<T>)
    requires forall x :: x in s ==> keep(x)
    ensures Filter(keep, s) == s
  {
    if s != [] {
      FilterAll(keep, s[1..]);
    }
  }

  /** Filtering one element out leaves the rest in its order. */
  lemma TakenOut<T>(keep: T -> bool, s: seq<T>, i: nat)
    requires i < |s| && !keep(s[i]) && forall j :: 0 <= j < |s| && j != i ==> keep(s[j])
    ensures Filter(keep, s) == s[..i] + s[i + 1..]
  {
    var before, after := s[..i], s[i + 1..];
    assert s == before + ([s[i]] + after);
    assert ([s[i]] + after)[1..] == after;
    FilterConcat(keep, before, [s[i]] + after);
    FilterAll(keep, before);
    FilterAll(keep, after);
  }
}

/** Fetching all the pages of a list, each by a query of its own over unchanged data. */
module PageWalk {
  import opened Wrappers
  import opened Pagination
  import opened Sequences

  function Min(a: nat, b: nat): nat {
    if a < b then a else b
  }

  /** `skip((page - 1) * perPage).take(perPage)` on the rows in the order one query gives them. */
  function Window<T>(rows: seq<T>, page: nat, perPage: nat): (w: seq<T>)
    requires page >= 1
    ensures |w| <= perPage
  {
    var lo := Min((page - 1) * perPage, |rows|);
    rows[lo..Min(lo + perPage, |rows|)]
  }

  /** Item i of a page is item (page - 1) * perPage + i of the whole; a page is full unless the list ends. */
  lemma WindowIs<T>(rows: seq<T>, page: nat, perPage: nat)
    requires page >= 1
    ensures var skip := (page - 1) * perPage;
      && |Window(rows, page, perPage)| ==
           (if skip >= |rows| then 0 else if |rows| - skip < perPage then |rows| - skip else perPage)
      && forall i :: 0 <= i < |Window(rows, page, perPage)| ==>
           skip + i < |rows| && Window(rows, page, perPage)[i] == rows[skip + i]
  {
  }

  /** The first n pages one after the other; page i is cut from the answer to query i. */
  function Walked<T>(answers: seq<seq<T>>, perPage: nat, n: nat): seq<T>
    requires n <= |answers|
  {
    if n == 0 then [] else Walked(answers, perPage, n - 1) + Window(answers[n - 1], n, perPage)
  }

  // ----- the order a query promises -----

  /** The rows come in the order of their sort key (its rank in the ORDER BY); rows with equal keys come in
    * any order. */
  ghost predicate Sorted<T(!new)>(key: T -> int, rows: seq<T>) {
    forall i, j :: 0 <= i < j < |rows| ==> key(rows[i]) <= key(rows[j])
  }

  ghost predicate Strict<T(!new)>(key: T -> int, rows: seq<T>) {
    forall i, j :: 0 <= i < j < |rows| ==> key(rows[i]) < key(rows[j])
  }

  /** Two possible answers to the same query. */
  ghost predicate Reorders<T(!new)>(key: T -> int, rows: seq<T>, other: seq<T>) {
    Sorted(key, other) && multiset(other) == multiset(rows)
  }

  /** One answer for each page. */
  ghost predicate Answers<T(!new)>(key: T -> int, rows: seq<T>, perPage: nat, answers: seq<seq<T>>)
    requires perPage >= 1
  {
    |answers| == TotalPages(|rows|, perPage)
    && forall i :: 0 <= i < |answers| ==> Reorders(key, rows, answers[i])
  }

  ghost predicate Distinct<T(!new)>(rows: seq<T>) {
    forall i, j :: 0 <= i < j < |rows| ==> rows[i] != rows[j]
  }

  /** Where page k ends. */
  function Cut(size: nat, k: nat, perPage: nat): (c: nat)
    ensures c <= size
  {
    Min(k * perPage, size)
  }

  /** A page ends after k * perPage rows, or with the list. */
  lemma CutIs(size: nat, k: nat, perPage: nat)
    ensures Cut(size, k, perPage) == if k * perPage < size then k * perPage else size
  {
  }

  /** No two rows with the same key fall on either side of a page boundary. */
  ghost predicate NoTieAcross<T(!new)>(key: T -> int, rows: seq<T>, perPage: nat) {
    forall k: nat :: 0 < Cut(|rows|, k, perPage) < |rows| ==>
      key(rows[Cut(|rows|, k, perPage) - 1]) < key(rows[Cut(|rows|, k, perPage)])
  }

  // ----- the rows below a key -----

  function Low<T(!new)>(key: T -> int, rows: seq<T>, bound: int): seq<T> {
    Filter(x => key(x) < bound, rows)
  }

  lemma {:induction false} LowIsPrefix<T(!new)>(key: T -> int, rows: seq<T>, bound: int)
    requires Sorted(key, rows)
    ensures var n := |Low(key, rows, bound)|;
      n <= |rows| && Low(key, rows, bound) == rows[..n]
      && (forall i :: 0 <= i < n ==> key(rows[i]) < bound)
      && (forall i :: n <= i < |rows| ==> key(rows[i]) >= bound)
  {
    if rows != [] {
      var rest := rows[1..];
      LowIsPrefix(key, rest, bound);
      assert forall i :: 0 <= i < |rest| ==> rest[i] == rows[i + 1];
      if key(rows[0]) >= bound {
        assert Low(key, rest, bound) == [];
      }
    }
  }

  /** A cut between different keys divides every answer into the same two multisets. */
  lemma CutFixed<T(!new)>(key: T -> int, rows: seq<T>, other: seq<T>, c: nat)
    requires Sorted(key, rows) && Reorders(key, rows, other)
    requires c <= |rows| && (0 < c < |rows| ==> key(rows[c - 1]) < key(rows[c]))
    ensures |other| == |rows| && multiset(other[..c]) == multiset(rows[..c])
  {
    assert |multiset(other)| == |other| && |multiset(rows)| == |rows|;
    if c == |rows| {
      assert rows[..c] == rows && other[..c] == other;
    } else if c > 0 {
      var bound := key(rows[c]);
      LowIsPrefix(key, rows, bound);
      LowIsPrefix(key, other, bound);
      forall x ensures multiset(Low(key, rows, bound))[x] == multiset(Low(key, other, bound))[x] {
        FilterCounts(y => key(y) < bound, rows, x);
        FilterCounts(y => key(y) < bound, other, x);
      }
      var low, low' := Low(key, rows, bound), Low(key, other, bound);
      assert multiset(low) == multiset(low');
      assert |multiset(low)| == |low| && |multiset(low')| == |low'|;
      assert |low| == c;
    }
  }

  // ----- pages -----

  lemma CutsGrow(size: nat, k: nat, perPage: nat)
    ensures Cut(size, 0, perPage) == 0 && Cut(size, k, perPage) <= Cut(size, k + 1, perPage)
    ensures Cut(size, k + 1, perPage) == Min(Cut(size, k, perPage) + perPage, size)
  {
  }

  lemma WindowCuts<T>(rows: seq<T>, k: nat, perPage: nat)
    ensures Cut(|rows|, k, perPage) <= Cut(|rows|, k + 1, perPage)
    ensures Window(rows, k + 1, perPage) == rows[Cut(|rows|, k, perPage)..Cut(|rows|, k + 1, perPage)]
  {
  }

  lemma LastCut(size: nat, perPage: nat)
    requires perPage >= 1
    ensures Cut(size, TotalPages(size, perPage), perPage) == size
  {
  }

  lemma SplitAt<T>(rows: seq<T>, a: nat, b: nat)
    requires a <= b <= |rows|
    ensures rows[..b] == rows[..a] + rows[a..b]
    ensures multiset(rows[..b]) == multiset(rows[..a]) + multiset(rows[a..b])
  {
  }

  /** When no tie falls across a boundary, the first n pages hold the first rows of any answer. */
  lemma {:induction false} PagesHold<T(!new)>(
      key: T -> int, rows: seq<T>, perPage: nat, answers: seq<seq<T>>, n: nat)
    requires perPage >= 1 && Sorted(key, rows) && NoTieAcross(key, rows, perPage)
    requires Answers(key, rows, perPage, answers) && n <= |answers|
    ensures multiset(Walked(answers, perPage, n)) == multiset(rows[..Cut(|rows|, n, perPage)])
  {
    hide Cut, Window, TotalPages, Sorted, Reorders, Min;
    CutsGrow(|rows|, 0, perPage);
    if n > 0 {
      PagesHold(key, rows, perPage, answers, n - 1);
      var other, a, b := answers[n - 1], Cut(|rows|, n - 1, perPage), Cut(|rows|, n, perPage);
      CutFixed(key, rows, other, a);
      CutFixed(key, rows, other, b);
      WindowCuts(other, n - 1, perPage);
      SplitAt(other, a, b);
    }
  }

  /** The same answer for every page. */
  lemma {:induction false} SameAnswer<T>(rows: seq<T>, perPage: nat, answers: seq<seq<T>>, n: nat)
    requires n <= |answers| && forall i :: 0 <= i < n ==> answers[i] == rows
    ensures Walked(answers, perPage, n) == rows[..Cut(|rows|, n, perPage)]
  {
    hide Cut, Window, Min;
    CutsGrow(|rows|, 0, perPage);
    if n > 0 {
      SameAnswer(rows, perPage, answers, n - 1);
      WindowCuts(rows, n - 1, perPage);
      SplitAt(rows, Cut(|rows|, n - 1, perPage), Cut(|rows|, n, perPage));
    }
  }

  lemma {:induction false} WalkedGrows<T>(answers: seq<seq<T>>, perPage: nat, m: nat, n: nat, x: T)
    requires m <= n <= |answers|
    ensures multiset(Walked(answers, perPage, m))[x] <= multiset(Walked(answers, perPage, n))[x]
  {
    hide Window;
    if m < n {
      WalkedGrows(answers, perPage, m, n - 1, x);
    }
  }

  /** Two neighbours with one key may change places. */
  lemma Swapped<T(!new)>(key: T -> int, rows: seq<T>, c: nat)
    requires Sorted(key, rows) && 0 < c < |rows| && key(rows[c - 1]) == key(rows[c])
    ensures Reorders(key, rows, rows[c - 1 := rows[c]][c := rows[c - 1]])
  {
  }

  lemma InBoth<T>(a: seq<T>, b: seq<T>, x: T)
    requires x in a && x in b
    ensures multiset(a + b)[x] >= 2
  {
  }

  lemma WalkedMore<T>(answers: seq<seq<T>>, perPage: nat, k: nat)
    requires k < |answers|
    ensures Walked(answers, perPage, k + 1) == Walked(answers, perPage, k) + Window(answers[k], k + 1, perPage)
  {
  }

  lemma BeginsAt<T>(rows: seq<T>, k: nat, perPage: nat)
    requires perPage >= 1 && Cut(|rows|, k, perPage) < |rows|
    ensures rows[Cut(|rows|, k, perPage)] in Window(rows, k + 1, perPage)
  {
  }

  /** Page k+1 begins with the row that page k ended with. */
  lemma PageRepeats<T>(rows: seq<T>, perPage: nat, answers: seq<seq<T>>, k: nat)
    requires perPage >= 1 && k < |answers| && forall i :: 0 <= i < k ==> answers[i] == rows
    requires |answers[k]| == |rows|
    requires var c := Cut(|rows|, k, perPage); 0 < c < |rows| && answers[k][c] == rows[c - 1]
    ensures multiset(Walked(answers, perPage, |answers|))[rows[Cut(|rows|, k, perPage) - 1]] >= 2
  {
    hide Cut, Window, Walked;
    var c := Cut(|rows|, k, perPage);
    var x := rows[c - 1];
    SameAnswer(rows, perPage, answers, k);
    BeginsAt(answers[k], k, perPage);
    assert x in rows[..c] by { assert rows[..c][c - 1] == x; }
    InBoth(rows[..c], Window(answers[k], k + 1, perPage), x);
    WalkedMore(answers, perPage, k);
    WalkedGrows(answers, perPage, k + 1, |answers|, x);
  }

  lemma OnceOnly<T(!new)>(rows: seq<T>, x: T)
    requires Distinct(rows)
    ensures multiset(rows)[x] <= 1
  {
    if x in rows {
      var i :| 0 <= i < |rows| && rows[i] == x;
      assert rows == rows[..i] + [x] + rows[i + 1..];
      assert x !in rows[..i] && x !in rows[i + 1..];
    }
  }

  /** A tie across the end of page k lets page k+1 repeat the last row of page k. */
  lemma TieRepeats<T(!new)>(key: T -> int, rows: seq<T>, perPage: nat, k: nat) returns (answers: seq<seq<T>>)
    requires perPage >= 1 && Sorted(key, rows) && Distinct(rows)
    requires var c := Cut(|rows|, k, perPage); 0 < c < |rows| && key(rows[c - 1]) == key(rows[c])
    ensures Answers(key, rows, perPage, answers)
    ensures var x := rows[Cut(|rows|, k, perPage) - 1];
      multiset(rows)[x] == 1 && multiset(Walked(answers, perPage, |answers|))[x] >= 2
  {
    var c, n := Cut(|rows|, k, perPage), TotalPages(|rows|, perPage);
    assert k < n by { TotalPagesLeast(|rows|, perPage, k); }
    hide Cut, TotalPages, Sorted, Distinct;
    Swapped(key, rows, c);
    var other := rows[c - 1 := rows[c]][c := rows[c - 1]];
    answers := seq(n, i => if i == k then other else rows);
    assert Reorders(key, rows, rows);
    PageRepeats(rows, perPage, answers, k);
    OnceOnly(rows, rows[c - 1]);
  }

  /** Whatever order the queries choose among ties, the pages together hold every row exactly once: this
    * is so if and only if no two rows with the same sort key stand on either side of a page boundary. */
  lemma WalkExactlyOnce<T(!new)>(key: T -> int, rows: seq<T>, perPage: nat)
    requires perPage >= 1 && Sorted(key, rows) && Distinct(rows)
    ensures NoTieAcross(key, rows, perPage) <==>
      (forall answers :: Answers(key, rows, perPage, answers) ==>
        multiset(Walked(answers, perPage, |answers|)) == multiset(rows))
  {
    if NoTieAcross(key, rows, perPage) {
      forall answers | Answers(key, rows, perPage, answers)
        ensures multiset(Walked(answers, perPage, |answers|)) == multiset(rows)
      {
        PagesHold(key, rows, perPage, answers, |answers|);
        LastCut(|rows|, perPage);
        assert rows[..|rows|] == rows;
      }
    } else {
      var k: nat :| 0 < Cut(|rows|, k, perPage) < |rows|
        && key(rows[Cut(|rows|, k, perPage) - 1]) >= key(rows[Cut(|rows|, k, perPage)]);
      var answers := TieRepeats(key, rows, perPage, k);
    }
  }

  // ----- unique sort keys -----

  lemma LastOfEqual<T>(a: seq<T>, b: seq<T>)
    requires |a| == |b| > 0 && multiset(a) == multiset(b)
    requires multiset(a[..|a| - 1]) == multiset(b[..|b| - 1])
    ensures a[|a| - 1] == b[|b| - 1]
  {
    var x, y := a[|a| - 1], b[|b| - 1];
    assert a == a[..|a| - 1] + [x] && b == b[..|b| - 1] + [y];
    assert multiset(a)[x] == multiset(a[..|a| - 1])[x] + 1;
  }

  /** A strictly sorted arrangement has no other sorted arrangement. */
  lemma ArrangementUnique<T(!new)>(key: T -> int, rows: seq<T>, other: seq<T>)
    requires Strict(key, rows) && Reorders(key, rows, other)
    ensures other == rows
  {
    assert |multiset(other)| == |other| && |multiset(rows)| == |rows|;
    forall c | 0 <= c < |rows| ensures other[c] == rows[c] {
      CutFixed(key, rows, other, c);
      CutFixed(key, rows, other, c + 1);
      assert other[..c + 1][..c] == other[..c] && rows[..c + 1][..c] == rows[..c];
      LastOfEqual(other[..c + 1], rows[..c + 1]);
    }
  }

  ghost predicate DistinctKeys<T(!new)>(key: T -> int, rows: seq<T>) {
    Pairwise((x, y) => key(x) != key(y), rows)
  }

  lemma {:induction false} KeyOnce<T(!new)>(key: T -> int, rows: seq<T>, k: int)
    requires DistinctKeys(key, rows)
    ensures |Filter(x => key(x) == k, rows)| <= 1
    ensures (forall x :: x in rows ==> key(x) != k) ==> Filter(x => key(x) == k, rows) == []
  {
    if rows != [] {
      assert rows == [rows[0]] + rows[1..];
      PairwiseCons((x, y) => key(x) != key(y), rows[0], rows[1..]);
      KeyOnce(key, rows[1..], k);
    }
  }

  lemma {:induction false} KeyTwice<T(!new)>(key: T -> int, rows: seq<T>, i: nat, j: nat)
    requires i < j < |rows| && key(rows[i]) == key(rows[j])
    ensures |Filter(x => key(x) == key(rows[i]), rows)| >= 2
  {
    if i > 0 {
      KeyTwice(key, rows[1..], i - 1, j - 1);
    } else {
      FilterMembers(x => key(x) == key(rows[i]), rows[1..], rows[j]);
      assert rows[j] == rows[1..][j - 1];
    }
  }

  lemma SameCount<T(!new)>(keep: T -> bool, rows: seq<T>, other: seq<T>)
    requires multiset(rows) == multiset(other)
    ensures |Filter(keep, rows)| == |Filter(keep, other)|
  {
    forall x ensures multiset(Filter(keep, rows))[x] == multiset(Filter(keep, other))[x] {
      FilterCounts(keep, rows, x);
      FilterCounts(keep, other, x);
    }
    var a, b := Filter(keep, rows), Filter(keep, other);
    assert multiset(a) == multiset(b);
    assert |multiset(a)| == |a| && |multiset(b)| == |b|;
  }

  /** Rows with different keys are strictly sorted once they are sorted. */
  lemma SortedIsStrict<T(!new)>(key: T -> int, rows: seq<T>, other: seq<T>)
    requires DistinctKeys(key, rows) && Reorders(key, rows, other)
    ensures Strict(key, other)
  {
    forall i, j | 0 <= i < j < |other| ensures key(other[i]) < key(other[j]) {
      if key(other[i]) == key(other[j]) {
        KeyTwice(key, other, i, j);
        KeyOnce(key, rows, key(other[i]));
        SameCount(x => key(x) == key(other[i]), rows, other);
      }
    }
  }

  /** When no two rows share a sort key the pages concatenate to the whole list in its one sorted order. */
  lemma UniqueKeyWalk<T(!new)>(
      key: T -> int, rows: seq<T>, whole: seq<T>, perPage: nat, answers: seq<seq<T>>)
    requires perPage >= 1 && DistinctKeys(key, rows) && Reorders(key, rows, whole)
    requires Answers(key, rows, perPage, answers)
    ensures Walked(answers, perPage, |answers|) == whole
  {
    SortedIsStrict(key, rows, whole);
    forall i | 0 <= i < |answers| ensures answers[i] == whole {
      assert Reorders(key, rows, answers[i]);
      ArrangementUnique(key, whole, answers[i]);
    }
    assert |multiset(whole)| == |whole| && |multiset(rows)| == |rows|;
    SameAnswer(whole, perPage, answers, |answers|);
    LastCut(|whole|, perPage);
  }

  // ----- following the links -----

  /** What a client gathers that fetches these addresses one after the other; answer i is the order in which
    * the store answers query i. */
  ghost function Gathered<T>(urls: seq<string>, answers: seq<seq<T>>): seq<T>
    requires |urls| == |answers|
    requires forall i :: 0 <= i < |urls| ==> PageOf(urls[i]).Some? && PageOf(urls[i]).value >= 1
    requires forall i :: 0 <= i < |urls| ==> PerPageOf(urls[i]).Some?
  {
    if urls == [] then []
    else
      var n := |urls| - 1;
      Gathered(urls[..n], answers[..n]) + Window(answers[n], PageOf(urls[n]).value, PerPageOf(urls[n]).value)
  }

  /** The addresses ask for pages 1, 2, ... of one size. */
  ghost predicate InOrder(urls: seq<string>, perPage: nat) {
    forall i :: 0 <= i < |urls| ==> PageOf(urls[i]) == Some(i + 1) && PerPageOf(urls[i]) == Some(perPage)
  }

  lemma {:induction false} GatheredIsWalked<T>(urls: seq<string>, answers: seq<seq<T>>, perPage: nat, n: nat)
    requires n <= |urls| == |answers| && InOrder(urls, perPage)
    ensures Gathered(urls[..n], answers[..n]) == Walked(answers, perPage, n)
  {
    hide Window, PageOf, PerPageOf;
    if n > 0 {
      GatheredIsWalked(urls, answers, perPage, n - 1);
      assert urls[..n][..n - 1] == urls[..n - 1] && answers[..n][..n - 1] == answers[..n - 1];
    }
  }

  lemma WalkInOrder(url: string, total: nat, perPage: nat)
    requires PageOf(url) == Some(1) && PerPageOf(url) == Some(perPage) && perPage >= 1
    ensures InOrder(Walk(url, total), perPage)
    ensures |Walk(url, total)| == if TotalPages(total, perPage) > 1 then TotalPages(total, perPage) else 1
  {
    hide PageOf, PerPageOf, Walk, TotalPages;
    WalkVisitsAll(url, total);
  }

  lemma OneEmptyPage<T>(answers: seq<seq<T>>, perPage: nat)
    requires |answers| == 1 && answers[0] == []
    ensures Walked(answers, perPage, 1) == []
  {
    assert Walked(answers, perPage, 0) == [];
  }

  /** A list without rows has no pages, and one request shows that. */
  lemma OnePageOrAll<T(!new)>(key: T -> int, rows: seq<T>, whole: seq<T>, perPage: nat, answers: seq<seq<T>>)
    requires perPage >= 1 && DistinctKeys(key, rows) && Reorders(key, rows, whole)
    requires |answers| == if TotalPages(|rows|, perPage) > 1 then TotalPages(|rows|, perPage) else 1
    requires forall i :: 0 <= i < |answers| ==> Reorders(key, rows, answers[i])
    ensures Walked(answers, perPage, |answers|) == whole
  {
    hide DistinctKeys, TotalPages, Sorted, Window, Walked;
    TotalPagesLeast(|rows|, perPage, 0);
    if rows == [] {
      assert |multiset(answers[0])| == |answers[0]| && |multiset(whole)| == |whole|;
      OneEmptyPage(answers, perPage);
    } else {
      hide Reorders;
      UniqueKeyWalk(key, rows, whole, perPage, answers);
    }
  }

  /** A client that starts at page 1 and follows nextUrl until there is none gathers the whole list once, in its
    * one sorted order, when the data stay unchanged and no two rows share a sort key. */
  lemma WalkGathersAll<T(!new)>(
      key: T -> int, rows: seq<T>, whole: seq<T>, url: string, perPage: nat, answers: seq<seq<T>>)
    requires PageOf(url) == Some(1) && PerPageOf(url) == Some(perPage) && perPage >= 1
    requires DistinctKeys(key, rows) && Reorders(key, rows, whole)
    requires |answers| == |Walk(url, |rows|)| && forall i :: 0 <= i < |answers| ==> Reorders(key, rows, answers[i])
    ensures InOrder(Walk(url, |rows|), perPage)
    ensures Gathered(Walk(url, |rows|), answers) == whole
  {
    hide PageOf, PerPageOf, Walk, DistinctKeys, Reorders, TotalPages;
    var urls := Walk(url, |rows|);
    WalkInOrder(url, |rows|, perPage);
    GatheredIsWalked(urls, answers, perPage, |urls|);
    assert urls[..|urls|] == urls && answers[..|urls|] == answers;
    OnePageOrAll(key, rows, whole, perPage, answers);
  }
}

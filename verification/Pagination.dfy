/** generatePagination: page arithmetic, and links whose target is the next request. */
module Pagination {
  import opened Sequences
  import opened Wrappers
  import U = UrlEncoded

  // ----- page arithmetic -----

  /** Math.ceil(totalItems / perPage). */
  function TotalPages(total: nat, perPage: nat): (n: nat)
    requires perPage >= 1
  {
    (total + perPage - 1) / perPage
  }

  function PrevPage(page: int): Option<int> {
    if page > 1 then Some(page - 1) else None
  }

  function NextPage(page: int, totalPages: int): Option<int> {
    if page < totalPages then Some(page + 1) else None
  }

  /** totalPages is the least number of pages that hold every item. */
  lemma TotalPagesLeast(total: nat, perPage: nat, n: nat)
    requires perPage >= 1
    ensures n * perPage >= total <==> n >= TotalPages(total, perPage)
  {
    var t := total + perPage - 1;
    var q, r := t / perPage, t % perPage;
    assert t == q * perPage + r;
    if n >= q {
      assert n * perPage >= q * perPage;
    } else {
      assert (n + 1) * perPage <= q * perPage;
    }
  }

  /** Going on and back again, and back and on again. */
  lemma PrevNext(page: int, totalPages: int)
    requires page >= 1
    ensures NextPage(page, totalPages).Some? ==> PrevPage(NextPage(page, totalPages).value) == Some(page)
    ensures PrevPage(page).Some? ==>
      (NextPage(PrevPage(page).value, totalPages) == Some(page) <==> 1 < page <= totalPages)
  {
  }

  /** Following prev from a page, however far past the end, to where there is none. */
  function WalkBack(page: int): (pages: seq<int>)
    requires page >= 1
    decreases page
  {
    match PrevPage(page)
    case None => [page]
    case Some(p) => [page] + WalkBack(p)
  }

  lemma {:induction false} WalkBackReachesOne(page: int)
    requires page >= 1
    ensures |WalkBack(page)| == page
    ensures forall i :: 0 <= i < page ==> WalkBack(page)[i] == page - i
  {
    if page > 1 {
      WalkBackReachesOne(page - 1);
      assert WalkBack(page) == [page] + WalkBack(page - 1);
    }
  }

  // ----- numbers in a query -----

  function DigitChar(n: int): char
    requires 0 <= n < 10
  {
    '0' + n as char
  }

  /** String(n). */
  function Decimal(n: nat): (s: string)
    ensures s != ""
  {
    if n < 10 then [DigitChar(n)] else Decimal(n / 10) + [DigitChar(n % 10)]
  }

  predicate AllDigits(s: string) {
    forall i :: 0 <= i < |s| ==> '0' <= s[i] <= '9'
  }

  function DigitsValue(s: string): nat
    requires AllDigits(s)
  {
    if s == "" then 0
    else DigitsValue(s[..|s| - 1]) * 10 + (s[|s| - 1] as int - '0' as int)
  }

  /** Number(s), for text that consists of decimal digits. */
  function NumberOf(s: string): Option<nat> {
    if s != "" && AllDigits(s) then Some(DigitsValue(s)) else None
  }

  lemma {:induction false} DecimalRoundTrip(n: nat)
    ensures NumberOf(Decimal(n)) == Some(n)
    ensures n > 0 ==> Decimal(n)[0] != '0'
    ensures n < 10 ==> |Decimal(n)| == 1
  {
    if n >= 10 {
      DecimalRoundTrip(n / 10);
      var s := Decimal(n);
      assert s[..|s| - 1] == Decimal(n / 10);
    } else {
      var s := Decimal(n);
      assert s == [DigitChar(n)] && s[..0] == "";
      assert AllDigits(s);
      assert DigitsValue(s[..0]) == 0;
      assert DigitsValue(s) == s[0] as int - '0' as int;
    }
  }

  // ----- links -----

  /** The address up to its query. */
  function Base(url: string): string {
    U.Before(url, '?')
  }

  /** The request's query, as the framework parses it. */
  function Query(url: string): U.Params {
    U.Parse(U.After(url, '?'))
  }

  function PageOf(url: string): Option<nat> {
    match U.Get(Query(url), "page") case None => Some(1) case Some(s) => NumberOf(s)
  }

  function PerPageOf(url: string): Option<nat> {
    match U.Get(Query(url), "perPage") case None => Some(10) case Some(s) => NumberOf(s)
  }

  function Shown(n: Option<int>): string
    requires n.Some? ==> n.value >= 0
  {
    match n case None => "null" case Some(i) => Decimal(i)
  }

  /** The query object after the first two `set` calls, and after the third. */
  function PrevParams(url: string, page: int, perPage: int): U.Params
    requires perPage >= 0
  {
    U.Set(U.Set(Query(url), "page", Shown(PrevPage(page))), "perPage", Decimal(perPage))
  }

  function NextParams(url: string, page: int, perPage: int, totalPages: int): U.Params
    requires page >= 0 && perPage >= 0
  {
    U.Set(PrevParams(url, page, perPage), "page", Shown(NextPage(page, totalPages)))
  }

  function Link(url: string, ps: U.Params): string {
    Base(url) + "?" + U.Serialise(ps)
  }

  /** The query without its two paging keys. */
  function Rest(ps: U.Params): U.Params {
    U.Without(U.Without(ps, "page"), "perPage")
  }

  /** a is all of the address up to its first question mark. */
  ghost predicate UpToQuery(url: string, a: string) {
    '?' !in a && (url == a || a + "?" <= url)
  }

  /** Every address has exactly one such part. */
  lemma BaseIs(url: string, a: string)
    ensures UpToQuery(url, a) <==> a == Base(url)
  {
    var i := U.Find(url, '?');
    if i < |url| {
      assert url == url[..i] + "?" + url[i + 1..];
    }
    if UpToQuery(url, a) {
      if url == a {
        U.NoCut(a, '?');
      } else {
        assert url == a + "?" + url[|a| + 1..];
        U.CutAt(a, url[|a| + 1..], '?');
      }
    }
  }

  lemma RestIs(ps: U.Params)
    ensures Rest(ps) == Filter((p: (string, string)) => p.0 != "page" && p.0 != "perPage", ps)
  {
    U.WithoutIs(ps, "page");
    U.WithoutIs(U.Without(ps, "page"), "perPage");
    FilterTwice((p: (string, string)) => p.0 != "page", (p: (string, string)) => p.0 != "perPage",
                (p: (string, string)) => p.0 != "page" && p.0 != "perPage", ps);
  }

  /** A request whose query does not name them asks for page 1 and ten items. */
  lemma Defaults(url: string)
    ensures (forall p :: p in Query(url) ==> p.0 != "page") ==> PageOf(url) == Some(1)
    ensures (forall p :: p in Query(url) ==> p.0 != "perPage") ==> PerPageOf(url) == Some(10)
    ensures '?' !in url ==> Query(url) == []
  {
    if forall p :: p in Query(url) ==> p.0 != "page" {
      U.FirstOfName(Query(url), "", [], "page");
    }
    if forall p :: p in Query(url) ==> p.0 != "perPage" {
      U.FirstOfName(Query(url), "", [], "perPage");
    }
    if '?' !in url {
      U.NoCut(url, '?');
      U.ParsePieces("", "");
    }
  }

  /** What following a link asks for, at the same address: that page, the same page size, and all else in the
    * query as it was. */
  ghost predicate LeadsTo(url: string, page: int, perPage: int, link: string) {
    && (forall a :: UpToQuery(url, a) ==> a + "?" <= link)
    && Base(link) == Base(url)
    && PageOf(link) == Some(page) && PerPageOf(link) == Some(perPage)
    && Filter((p: (string, string)) => p.0 != "page" && p.0 != "perPage", Query(link))
       == Filter((p: (string, string)) => p.0 != "page" && p.0 != "perPage", Query(url))
    && forall key :: key != "page" && key != "perPage" ==> U.Get(Query(link), key) == U.Get(Query(url), key)
  }

  /** The address a link shows is the address the next request arrives at. */
  lemma LinkArrives(url: string, ps: U.Params)
    ensures Base(Link(url, ps)) == Base(url) && Query(Link(url, ps)) == ps
    ensures forall a :: UpToQuery(url, a) ==> a + "?" <= Link(url, ps)
  {
    forall a | UpToQuery(url, a) ensures a + "?" <= Link(url, ps) {
      BaseIs(url, a);
    }
    U.CutAt(Base(url), U.Serialise(ps), '?');
    U.ParseUndoesSerialise(ps);
  }

  lemma RestOfSet(ps: U.Params, key: string, value: string)
    requires key == "page" || key == "perPage"
    ensures Rest(U.Set(ps, key, value)) == Rest(ps)
  {
    var after := U.Set(ps, key, value);
    U.SetReplaces(ps, key, value, "");
    U.WithoutTwice(after, "page", "perPage");
    U.WithoutTwice(ps, "page", "perPage");
  }

  lemma PrevLeads(url: string, page: int, perPage: int)
    requires page > 1 && perPage >= 1
    ensures LeadsTo(url, page - 1, perPage, Link(url, PrevParams(url, page, perPage)))
  {
    var q := Query(url);
    var q1 := U.Set(q, "page", Decimal(page - 1));
    var q2 := U.Set(q1, "perPage", Decimal(perPage));
    LinkArrives(url, q2);
    RestIs(q);
    RestIs(q2);
    U.SetReplaces(q, "page", Decimal(page - 1), "");
    U.SetReplaces(q1, "perPage", Decimal(perPage), "page");
    DecimalRoundTrip(page - 1);
    DecimalRoundTrip(perPage);
    RestOfSet(q, "page", Decimal(page - 1));
    RestOfSet(q1, "perPage", Decimal(perPage));
    forall key | key != "page" && key != "perPage" ensures U.Get(q2, key) == U.Get(q, key) {
      U.SetReplaces(q, "page", Decimal(page - 1), key);
      U.SetReplaces(q1, "perPage", Decimal(perPage), key);
    }
  }

  lemma NextLeads(url: string, page: int, perPage: int, totalPages: int)
    requires 1 <= page < totalPages && perPage >= 1
    ensures LeadsTo(url, page + 1, perPage, Link(url, NextParams(url, page, perPage, totalPages)))
  {
    var q, prev, pp, next := Query(url), Shown(PrevPage(page)), Decimal(perPage), Decimal(page + 1);
    var q1 := U.Set(q, "page", prev);
    var q2 := U.Set(q1, "perPage", pp);
    var q3 := U.Set(q2, "page", next);
    LinkArrives(url, q3);
    RestIs(q);
    RestIs(q3);
    U.SetReplaces(q1, "perPage", pp, "");
    U.SetReplaces(q2, "page", next, "perPage");
    DecimalRoundTrip(page + 1);
    DecimalRoundTrip(perPage);
    RestOfSet(q, "page", prev);
    RestOfSet(q1, "perPage", pp);
    RestOfSet(q2, "page", next);
    forall key | key != "page" && key != "perPage" ensures U.Get(q3, key) == U.Get(q, key) {
      U.SetReplaces(q, "page", prev, key);
      U.SetReplaces(q1, "perPage", pp, key);
      U.SetReplaces(q2, "page", next, key);
    }
  }

  // ----- the function itself -----

  datatype Error = InvalidParameters | NegativeTotal

  datatype Answer<T> =
    | Page(data: seq<T>, currentPage: int, totalPages: int, totalItems: int, itemsPerPage: int,
           currUrl: string, prevUrl: Option<string>, nextUrl: Option<string>)
    | Rejected(error: Error)

  /** URLSearchParams, updated in place. */
  class SearchParams {
    var list: U.Params

    constructor (list: U.Params)
      ensures this.list == list
    {
      this.list := list;
    }

    method Set(name: string, value: string)
      modifies this
      ensures list == U.Set(old(list), name, value)
    {
      list := U.Set(list, name, value);
    }
  }

  function NextUrl(url: string, page: int, perPage: int, total: int): Option<string> {
    if page < 1 || perPage < 1 || total < 0 then None
    else
      var n := TotalPages(total, perPage);
      if page < n then Some(Link(url, NextParams(url, page, perPage, n))) else None
  }

  /** The numbers of a page, and its links: each, when there is one, leads to its page; there is none before
    * page 1 or after the last. */
  ghost predicate Describes<T(!new)>(r: Answer<T>, url: string, page: int, perPage: int, total: int)
    requires page >= 1 && perPage >= 1 && total >= 0
  {
    && r.Page? && r.currentPage == page && r.totalItems == total && r.itemsPerPage == perPage
    && r.totalPages == TotalPages(total, perPage) && r.currUrl == url
    && (r.prevUrl.Some? <==> page > 1) && (r.nextUrl.Some? <==> page < r.totalPages)
    && (r.prevUrl.Some? ==> LeadsTo(url, page - 1, perPage, r.prevUrl.value))
    && (r.nextUrl.Some? ==> LeadsTo(url, page + 1, perPage, r.nextUrl.value))
    && r.nextUrl == NextUrl(url, page, perPage, total)
  }

  method GeneratePagination<T(!new)>(page: int, perPage: int, totalItems: int, url: string, items: seq<T>)
    returns (r: Answer<T>)
    ensures r.Page? <==> page >= 1 && perPage >= 1 && totalItems >= 0
    ensures r.Rejected? ==> r.error == if page < 1 || perPage < 1 then InvalidParameters else NegativeTotal
    ensures r.Page? ==> Describes(r, url, page, perPage, totalItems) && r.data == items
  {
    if page < 1 || perPage < 1 {
      return Rejected(InvalidParameters);
    }
    if totalItems < 0 {
      return Rejected(NegativeTotal);
    }
    var totalPages := TotalPages(totalItems, perPage);
    var prevPage, nextPage := PrevPage(page), NextPage(page, totalPages);

    var queryParams := new SearchParams(Query(url));
    queryParams.Set("page", Shown(prevPage));
    queryParams.Set("perPage", Decimal(perPage));
    var base := Base(url);
    var prevUrl := if prevPage.Some? then Some(base + "?" + U.Serialise(queryParams.list)) else None;
    queryParams.Set("page", Shown(nextPage));
    var nextUrl := if nextPage.Some? then Some(base + "?" + U.Serialise(queryParams.list)) else None;

    if page > 1 {
      PrevLeads(url, page, perPage);
    }
    if page < totalPages {
      NextLeads(url, page, perPage, totalPages);
    }
    r := Page(items, page, totalPages, totalItems, perPage, url, prevUrl, nextUrl);
  }

  // ----- following nextUrl -----

  /** A client that starts at an address and follows nextUrl until there is none. */
  ghost function Walk(url: string, total: nat): (urls: seq<string>)
    requires PageOf(url).Some? && PageOf(url).value >= 1
    requires PerPageOf(url).Some? && PerPageOf(url).value >= 1
    decreases TotalPages(total, PerPageOf(url).value) - PageOf(url).value
  {
    var page, perPage := PageOf(url).value, PerPageOf(url).value;
    match NextUrl(url, page, perPage, total)
    case None => [url]
    case Some(next) =>
      NextLeads(url, page, perPage, TotalPages(total, perPage));
      [url] + Walk(next, total)
  }

  lemma LeadsFurther(url: string, next: string, last: string, p: int, q: int, perPage: int)
    requires LeadsTo(url, p, perPage, next) && LeadsTo(next, q, perPage, last)
    ensures LeadsTo(url, q, perPage, last)
  {
    forall a | UpToQuery(url, a) ensures a + "?" <= last {
      assert a + "?" <= next;
      assert UpToQuery(next, a);
    }
  }

  /** From page p the walk visits p, p+1, ..., totalPages once each in order (or p alone when it is not
    * before the last), every request keeping the base, the page size and all other parameters. */
  lemma {:induction false} WalkVisitsAll(url: string, total: nat)
    requires PageOf(url).Some? && PageOf(url).value >= 1
    requires PerPageOf(url).Some? && PerPageOf(url).value >= 1
    ensures var p, n := PageOf(url).value, TotalPages(total, PerPageOf(url).value);
      && |Walk(url, total)| == (if p < n then n - p + 1 else 1)
      && Walk(url, total)[0] == url
      && forall i :: 0 < i < |Walk(url, total)| ==>
           LeadsTo(url, p + i, PerPageOf(url).value, Walk(url, total)[i])
    decreases TotalPages(total, PerPageOf(url).value) - PageOf(url).value
  {
    hide PageOf, PerPageOf, Query, Base, Rest, Link, NextParams, TotalPages;
    var page, perPage := PageOf(url).value, PerPageOf(url).value;
    var n := TotalPages(total, perPage);
    if page < n {
      var next := NextUrl(url, page, perPage, total).value;
      NextLeads(url, page, perPage, n);
      WalkVisitsAll(next, total);
      var rest := Walk(next, total);
      forall i | 0 < i < |Walk(url, total)| ensures LeadsTo(url, page + i, perPage, Walk(url, total)[i]) {
        if i > 1 {
          LeadsFurther(url, next, rest[i - 1], page + 1, page + i, perPage);
        }
      }
    }
  }
}

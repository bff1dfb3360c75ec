/** getAllUsers: the accounts whose email matches a search, by email, a page at a time. */
module UserListing {
  import opened Sequences
  import opened Accounts
  import opened Tokens
  import opened AuthMachine
  import opened AuthInvariants
  import opened AuthRuns
  import P = Pagination
  import W = PageWalk

  /** An account without its password. */
  datatype Profile = Profile(id: string, email: string, role: string, status: Status, verified: bool)

  function ProfileOf(u: User): Profile {
    Profile(u.id, u.email, u.role, u.status, u.verified)
  }

  datatype Listing = Listed(answer: P.Answer<Profile>) | ServerError

  /** like: the store's case-insensitive match of an email against `%search%`. */
  function Matching(rows: seq<User>, search: string, like: (string, string) -> bool): seq<User> {
    if search == "" then rows else Filter((u: User) => like(u.email, search), rows)
  }

  /** Listed are the accounts whose email the store matches, all of them without a search. */
  lemma MatchingIs(rows: seq<User>, search: string, like: (string, string) -> bool)
    ensures forall u: User ::
      multiset(Matching(rows, search, like))[u] == if search == "" || like(u.email, search) then multiset(rows)[u] else 0
    ensures |Matching(rows, search, like)| ==
      |set i: nat | i < |rows| && (search == "" || like(rows[i].email, search))|
  {
    var wanted := (v: User) => search == "" || like(v.email, search);
    if search == "" {
      FilterAll(wanted, rows);
    } else {
      SameFilter(wanted, (v: User) => like(v.email, search), rows);
    }
    assert Matching(rows, search, like) == Filter(wanted, rows);
    forall u ensures multiset(Filter(wanted, rows))[u] == if wanted(u) then multiset(rows)[u] else 0 {
      FilterCounts(wanted, rows, u);
    }
    FilterSize(wanted, rows);
    assert Places(wanted, rows) == set i: nat | i < |rows| && (search == "" || like(rows[i].email, search));
  }

  /** rank: the place of an email in the store's collation. */
  function ByEmail(rank: string -> int): User -> int {
    (u: User) => rank(u.email)
  }

  /** The answer holds each account that the store matches as often as the table does, and nothing else, in the
    * order of the emails. */
  ghost predicate Lists(rows: seq<User>, search: string, like: (string, string) -> bool, rank: string -> int,
                        answer: seq<User>) {
    && (forall u: User :: multiset(answer)[u] ==
          if search == "" || like(u.email, search) then multiset(rows)[u] else 0)
    && |answer| == |set i: nat | i < |rows| && (search == "" || like(rows[i].email, search))|
    && (forall i, j :: 0 <= i < j < |answer| ==> rank(answer[i].email) <= rank(answer[j].email))
  }

  lemma AnswerIs(rows: seq<User>, search: string, like: (string, string) -> bool, rank: string -> int,
                 answer: seq<User>)
    requires W.Reorders(ByEmail(rank), Matching(rows, search, like), answer)
    ensures Lists(rows, search, like, rank, answer)
  {
    MatchingIs(rows, search, like);
    var listed := Matching(rows, search, like);
    assert |multiset(answer)| == |answer| && |multiset(listed)| == |listed|;
    forall i, j | 0 <= i < j < |answer| ensures rank(answer[i].email) <= rank(answer[j].email) {
      assert ByEmail(rank)(answer[i]) <= ByEmail(rank)(answer[j]);
    }
  }

  ghost predicate Ranks(rank: string -> int, rows: seq<User>) {
    forall u, v :: u in rows && v in rows && rank(u.email) == rank(v.email) ==> u.email == v.email
  }

  lemma MatchingKeys(rows: seq<User>, search: string, like: (string, string) -> bool, rank: string -> int)
    requires UniqueRows(rows) && Ranks(rank, rows)
    ensures W.DistinctKeys(ByEmail(rank), Matching(rows, search, like))
  {
    var key := ByEmail(rank);
    assert W.DistinctKeys(key, rows);
    FilterPairwise((x, y) => key(x) != key(y), (u: User) => like(u.email, search), rows);
  }

  /** After any run of the account service, walking all pages, each by a query of its own, gives every
    * matching account exactly once, in the order of their emails. */
  lemma UsersWalk(p: Platform, now: nat, roles: map<string, Role>, steps: seq<Step>,
                  search: string, like: (string, string) -> bool, rank: string -> int,
                  perPage: nat, whole: seq<User>, answers: seq<seq<User>>)
    requires Sound(p) && perPage >= 1
    requires var rows := Exec(p, Fresh(now, roles), steps).world.users;
      && Ranks(rank, rows)
      && W.Reorders(ByEmail(rank), Matching(rows, search, like), whole)
      && W.Answers(ByEmail(rank), Matching(rows, search, like), perPage, answers)
    ensures W.Walked(answers, perPage, |answers|) == whole
    ensures Lists(Exec(p, Fresh(now, roles), steps).world.users, search, like, rank, whole)
  {
    AnswerIs(Exec(p, Fresh(now, roles), steps).world.users, search, like, rank, whole);
    hide WorldOk, W.Reorders, W.Answers, Exec;
    var w := Exec(p, Fresh(now, roles), steps).world;
    EveryRunOk(p, now, roles, steps);
    RowsUnique(p, w);
    MatchingKeys(w.users, search, like, rank);
    W.UniqueKeyWalk(ByEmail(rank), Matching(w.users, search, like), whole, perPage, answers);
  }
}

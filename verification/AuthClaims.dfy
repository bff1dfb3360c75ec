/** What the tokens of a concurrent run carry: the account and role that the call loaded, at the instants at
  * which it signed. */
module AuthClaims {
  import opened Wrappers
  import opened Accounts
  import opened Tokens
  import opened Redis
  import opened AuthMachine
  import opened AuthInvariants
  import opened AuthRuns
  import opened AuthInterleaving

  /** Step k resumed the call where it loads its account: the account was stored, with that role. */
  ghost predicate LoadedAt(
      p: Platform, start: World, steps: seq<Step>, k: nat, id: nat, user: User, role: Option<Role>)
  {
    && k < |steps| && steps[k].Resume? && steps[k].id == id
    && var s := Exec(p, start, steps[..k]);
    && id in s.calls && (s.calls[id].SignInStart? || s.calls[id].RefreshVerified?)
    && user in s.world.users
    && role == if user.role in s.world.roles then Some(s.world.roles[user.role]) else None
  }

  /** Step k resumed the call and signed the token: its claims are these, counted from the clock of that step. */
  ghost predicate SignedAt(p: Platform, start: World, steps: seq<Step>, k: nat, id: nat,
                           token: string, email: string, role: Option<Role>, lifetime: nat)
  {
    && k < |steps| && steps[k].Resume? && steps[k].id == id
    && var s := Exec(p, start, steps[..k]);
    && id in s.calls
    && p.decode(token) == Some(Claims(email, role, s.world.now / 1000, s.world.now / 1000 + lifetime))
  }

  ghost predicate Loaded(
      p: Platform, start: World, steps: seq<Step>, id: nat, user: User, role: Option<Role>)
  {
    exists k :: LoadedAt(p, start, steps, k, id, user, role)
  }

  /** One token signed after the account was loaded, for that lifetime. */
  ghost predicate OneFrom(p: Platform, start: World, steps: seq<Step>, k: nat, k1: nat, id: nat,
                          user: User, role: Option<Role>, token: string, lifetime: nat)
  {
    && LoadedAt(p, start, steps, k, id, user, role) && k < k1
    && SignedAt(p, start, steps, k1, id, token, user.email, role, lifetime)
  }

  ghost predicate AccessFrom(p: Platform, start: World, steps: seq<Step>, id: nat,
                             user: User, role: Option<Role>, access: string, lifetime: nat)
  {
    exists k, k1 :: OneFrom(p, start, steps, k, k1, id, user, role, access, lifetime)
  }

  ghost predicate TwoFrom(p: Platform, start: World, steps: seq<Step>, k: nat, k1: nat, k2: nat, id: nat,
                          user: User, role: Option<Role>, access: string, refresh: string)
  {
    && OneFrom(p, start, steps, k, k1, id, user, role, access, 36000) && k1 < k2
    && SignedAt(p, start, steps, k2, id, refresh, user.email, role, 604800)
  }

  ghost predicate BothFrom(p: Platform, start: World, steps: seq<Step>, id: nat,
                           user: User, role: Option<Role>, access: string, refresh: string)
  {
    exists k, k1, k2 :: TwoFrom(p, start, steps, k, k1, k2, id, user, role, access, refresh)
  }

  predicate NamesUser(p: Platform, token: string, user: User) {
    p.decode(token).Some? && p.decode(token).value.email == user.email
  }

  /** What is known of a call at each of its stages. */
  ghost predicate Sourced(p: Platform, start: World, steps: seq<Step>, id: nat, c: Call) {
    match c
    case SignInChecked(user, role, email) => email == user.email && Loaded(p, start, steps, id, user, role)
    case SignInAccess(user, role, email, access) =>
      email == user.email && AccessFrom(p, start, steps, id, user, role, access, 36000)
    case SignInSigned(user, access, refresh) =>
      exists role :: BothFrom(p, start, steps, id, user, role, access, refresh)
    case SignInSessionSet(user, access, refresh) =>
      exists role :: BothFrom(p, start, steps, id, user, role, access, refresh)
    case SignInSession(user, access, refresh) =>
      exists role :: BothFrom(p, start, steps, id, user, role, access, refresh)
    case SignInRefreshSet(user, access, refresh) =>
      exists role :: BothFrom(p, start, steps, id, user, role, access, refresh)
    case Done(TokensIssued(u, access, refresh)) =>
      exists user: User, role :: user.id == u && BothFrom(p, start, steps, id, user, role, access, refresh)
    case RefreshFound(token, user, role, _) => NamesUser(p, token, user) && Loaded(p, start, steps, id, user, role)
    case RefreshAllowed(token, user, role) => NamesUser(p, token, user) && Loaded(p, start, steps, id, user, role)
    case RefreshSigned(token, user, access) =>
      NamesUser(p, token, user) && exists role :: AccessFrom(p, start, steps, id, user, role, access, 900)
    case RefreshSessionSet(token, user, access) =>
      NamesUser(p, token, user) && exists role :: AccessFrom(p, start, steps, id, user, role, access, 900)
    case Done(AccessIssued(token, access)) =>
      exists user, role ::
        NamesUser(p, token, user) && AccessFrom(p, start, steps, id, user, role, access, 900)
    case _ => true
  }

  // ----- a longer run -----

  lemma LoadedGrows(p: Platform, start: World, before: seq<Step>, step: Step, id: nat, user: User, role: Option<Role>)
    requires Loaded(p, start, before, id, user, role)
    ensures Loaded(p, start, before + [step], id, user, role)
  {
    hide Exec;
    var k: nat :| LoadedAt(p, start, before, k, id, user, role);
    assert (before + [step])[..k] == before[..k];
    assert LoadedAt(p, start, before + [step], k, id, user, role);
  }

  lemma OneGrows(p: Platform, start: World, before: seq<Step>, step: Step, k: nat, k1: nat, id: nat,
                 user: User, role: Option<Role>, token: string, lifetime: nat)
    requires OneFrom(p, start, before, k, k1, id, user, role, token, lifetime)
    ensures OneFrom(p, start, before + [step], k, k1, id, user, role, token, lifetime)
  {
    hide Exec;
    assert (before + [step])[..k] == before[..k] && (before + [step])[..k1] == before[..k1];
  }

  lemma AccessGrows(p: Platform, start: World, before: seq<Step>, step: Step, id: nat,
                    user: User, role: Option<Role>, access: string, lifetime: nat)
    requires AccessFrom(p, start, before, id, user, role, access, lifetime)
    ensures AccessFrom(p, start, before + [step], id, user, role, access, lifetime)
  {
    hide OneFrom;
    var k: nat, k1: nat :| OneFrom(p, start, before, k, k1, id, user, role, access, lifetime);
    OneGrows(p, start, before, step, k, k1, id, user, role, access, lifetime);
  }

  lemma BothGrows(p: Platform, start: World, before: seq<Step>, step: Step, id: nat,
                  user: User, role: Option<Role>, access: string, refresh: string)
    requires BothFrom(p, start, before, id, user, role, access, refresh)
    ensures BothFrom(p, start, before + [step], id, user, role, access, refresh)
  {
    hide OneFrom, Exec;
    var k: nat, k1: nat, k2: nat :| TwoFrom(p, start, before, k, k1, k2, id, user, role, access, refresh);
    OneGrows(p, start, before, step, k, k1, id, user, role, access, 36000);
    assert (before + [step])[..k2] == before[..k2];
    assert TwoFrom(p, start, before + [step], k, k1, k2, id, user, role, access, refresh);
  }

  lemma SourcedGrows(p: Platform, start: World, before: seq<Step>, step: Step, id: nat, c: Call)
    requires Sourced(p, start, before, id, c)
    ensures Sourced(p, start, before + [step], id, c)
  {
    hide Loaded, AccessFrom, BothFrom;
    var steps := before + [step];
    forall user, role | Loaded(p, start, before, id, user, role) ensures Loaded(p, start, steps, id, user, role) {
      LoadedGrows(p, start, before, step, id, user, role);
    }
    forall user, role, access, lifetime | AccessFrom(p, start, before, id, user, role, access, lifetime)
      ensures AccessFrom(p, start, steps, id, user, role, access, lifetime)
    {
      AccessGrows(p, start, before, step, id, user, role, access, lifetime);
    }
    forall user, role, access, refresh | BothFrom(p, start, before, id, user, role, access, refresh)
      ensures BothFrom(p, start, steps, id, user, role, access, refresh)
    {
      BothGrows(p, start, before, step, id, user, role, access, refresh);
    }
  }

  // ----- the step just made -----

  lemma LoadsHere(p: Platform, start: World, before: seq<Step>, id: nat, f: Fault, user: User)
    requires var s := Exec(p, start, before);
      id in s.calls && (s.calls[id].SignInStart? || s.calls[id].RefreshVerified?) && user in s.world.users
    ensures Loaded(p, start, before + [Resume(id, f)], id, user, RoleOf(Exec(p, start, before).world, user))
  {
    hide Exec;
    var steps := before + [Resume(id, f)];
    assert steps[..|before|] == before;
    assert LoadedAt(p, start, steps, |before|, id, user, RoleOf(Exec(p, start, before).world, user));
  }

  lemma SignsFirst(p: Platform, start: World, before: seq<Step>, id: nat, f: Fault,
                   user: User, role: Option<Role>, lifetime: nat)
    requires Sound(p) && Loaded(p, start, before, id, user, role) && id in Exec(p, start, before).calls
    ensures AccessFrom(p, start, before + [Resume(id, f)], id, user, role,
                       Sign(p, Exec(p, start, before).world.now, user.email, role, lifetime), lifetime)
  {
    hide Exec;
    var steps, n := before + [Resume(id, f)], |before|;
    var k: nat :| LoadedAt(p, start, before, k, id, user, role);
    assert steps[..k] == before[..k] && steps[..n] == before;
    assert OneFrom(p, start, steps, k, n, id, user, role,
                   Sign(p, Exec(p, start, before).world.now, user.email, role, lifetime), lifetime);
  }

  lemma SignsSecond(p: Platform, start: World, before: seq<Step>, id: nat, f: Fault,
                    user: User, role: Option<Role>, access: string)
    requires Sound(p) && AccessFrom(p, start, before, id, user, role, access, 36000)
    requires id in Exec(p, start, before).calls
    ensures BothFrom(p, start, before + [Resume(id, f)], id, user, role, access,
                     Sign(p, Exec(p, start, before).world.now, user.email, role, WEEK))
  {
    hide Exec;
    var steps, n := before + [Resume(id, f)], |before|;
    var k: nat, k1: nat :| OneFrom(p, start, before, k, k1, id, user, role, access, 36000);
    OneGrows(p, start, before, Resume(id, f), k, k1, id, user, role, access, 36000);
    assert steps[..n] == before;
    assert TwoFrom(p, start, steps, k, k1, n, id, user, role, access,
                   Sign(p, Exec(p, start, before).world.now, user.email, role, WEEK));
  }

  lemma SignInSourced(p: Platform, start: World, before: seq<Step>, id: nat, f: Fault)
    requires Sound(p)
    requires var s := Exec(p, start, before);
      id in s.calls && SigningIn(s.calls[id]) && Sourced(p, start, before, id, s.calls[id])
    ensures var s := Exec(p, start, before);
      Sourced(p, start, before + [Resume(id, f)], id, SignInTurn(p, s.world, s.calls[id], f).call)
  {
    hide Exec, Loaded, AccessFrom, BothFrom, Sign, SetSession, SetRefresh, ExpireKey;
    var s, steps := Exec(p, start, before), before + [Resume(id, f)];
    var c := s.calls[id];
    SourcedGrows(p, start, before, Resume(id, f), id, c);
    match c
    case SignInStart(email, password) =>
      var checked := SignInCheck(p, s.world, p.lower(email), password);
      if !checked.Done? {
        LoadsHere(p, start, before, id, f, checked.user);
      }
    case SignInChecked(user, role, email) =>
      SignsFirst(p, start, before, id, f, user, role, 36000);
    case SignInAccess(user, role, email, access) =>
      SignsSecond(p, start, before, id, f, user, role, access);
    case _ =>
  }

  lemma RefreshSourced(p: Platform, start: World, before: seq<Step>, id: nat, f: Fault)
    requires Sound(p)
    requires var s := Exec(p, start, before);
      id in s.calls && Refreshing(s.calls[id]) && Sourced(p, start, before, id, s.calls[id])
      && CallOk(p, s.world, id, s.calls[id])
    ensures var s := Exec(p, start, before);
      Sourced(p, start, before + [Resume(id, f)], id, RefreshTurn(p, s.world, id, s.calls[id], f).call)
  {
    hide Exec, Loaded, AccessFrom, BothFrom, Sign, SetSession, ExpireKey, GetKey;
    var s, steps := Exec(p, start, before), before + [Resume(id, f)];
    var c := s.calls[id];
    SourcedGrows(p, start, before, Resume(id, f), id, c);
    match c
    case RefreshVerified(token, claims, at) =>
      var found := FindByEmail(s.world.users, claims.email);
      if found.Some? {
        LoadsHere(p, start, before, id, f, found.value);
      }
    case RefreshAllowed(token, user, role) =>
      SignsFirst(p, start, before, id, f, user, role, 900);
    case _ =>
  }

  /** The calls of which Sourced says nothing. */
  predicate Tokenless(c: Call) {
    !SigningIn(c) && !Refreshing(c) && (c.Done? ==> !c.outcome.TokensIssued? && !c.outcome.AccessIssued?)
  }

  lemma TokenlessTurn(p: Platform, w: World, id: nat, c: Call, f: Fault)
    requires Tokenless(c)
    ensures Tokenless(Advance(p, w, id, c, f).call)
  {
    hide Note, AddUser, DelRefresh, DelReset, GetKey, Holding, SaveRow;
  }

  lemma TokenlessSourced(p: Platform, start: World, steps: seq<Step>, id: nat, c: Call)
    requires Tokenless(c)
    ensures Sourced(p, start, steps, id, c)
  {
  }

  lemma ResumeSourced(p: Platform, start: World, before: seq<Step>, id: nat, f: Fault)
    requires Sound(p)
    requires var s := Exec(p, start, before);
      id in s.calls && Sourced(p, start, before, id, s.calls[id]) && CallOk(p, s.world, id, s.calls[id])
    ensures var s := Exec(p, start, before);
      Sourced(p, start, before + [Resume(id, f)], id, Advance(p, s.world, id, s.calls[id], f).call)
  {
    hide Exec, Sourced, CallOk, SignUpTurn, ConfirmTurn, SignInTurn, RefreshTurn, LogoutTurn, ResetTurn;
    var s, steps := Exec(p, start, before), before + [Resume(id, f)];
    var c := s.calls[id];
    if SigningIn(c) {
      SignInSourced(p, start, before, id, f);
    } else if Refreshing(c) {
      RefreshSourced(p, start, before, id, f);
    } else if Tokenless(c) {
      TokenlessTurn(p, s.world, id, c, f);
      TokenlessSourced(p, start, steps, id, Advance(p, s.world, id, c, f).call);
    } else {
      SourcedGrows(p, start, before, Resume(id, f), id, c);
    }
  }

  lemma NewSourced(p: Platform, start: World, steps: seq<Step>, id: nat, c: Call)
    requires Starts(c)
    ensures Sourced(p, start, steps, id, c)
  {
  }

  lemma NoCalls(p: Platform, start: World)
    ensures Exec(p, start, []).calls == map[]
  {
  }

  lemma {:induction false} EveryRunSourced(p: Platform, now: nat, roles: map<string, Role>, steps: seq<Step>)
    requires Sound(p)
    ensures var s := Exec(p, Fresh(now, roles), steps);
      forall id :: id in s.calls ==> Sourced(p, Fresh(now, roles), steps, id, s.calls[id])
  {
    if steps != [] {
      hide Sourced, WorldOk, CallOk, Advance, Exec;
      var start, n := Fresh(now, roles), |steps| - 1;
      var before, step := steps[..n], steps[n];
      assert steps == before + [step];
      EveryRunSourced(p, now, roles, before);
      EveryRunOk(p, now, roles, before);
      StepLast(p, start, before, step);
      var s, s' := Exec(p, start, before), Exec(p, start, steps);
      forall id | id in s'.calls ensures Sourced(p, start, steps, id, s'.calls[id]) {
        if step.Resume? && step.id == id {
          ResumeSourced(p, start, before, id, step.fault);
        } else if id in s.calls {
          SourcedGrows(p, start, before, step, id, s.calls[id]);
        } else {
          NewSourced(p, start, steps, id, step.call);
        }
      }
    } else {
      NoCalls(p, Fresh(now, roles));
    }
  }

  // ----- what was issued -----

  /** In every run, the access token of a completed refresh carries the email and role of the account its old
    * token names, as they were stored at the step that loaded it, for 900 seconds from the step that signed it. */
  lemma CompletedRefreshCarries(
      p: Platform, now: nat, roles: map<string, Role>, steps: seq<Step>, id: nat, token: string, access: string)
    returns (k: nat, k1: nat, user: User, role: Option<Role>)
    requires Sound(p)
    requires var s := Exec(p, Fresh(now, roles), steps);
      id in s.calls && s.calls[id] == Done(AccessIssued(token, access))
    ensures p.decode(token).Some? && p.decode(token).value.email == user.email
    ensures k < k1 && LoadedAt(p, Fresh(now, roles), steps, k, id, user, role)
    ensures SignedAt(p, Fresh(now, roles), steps, k1, id, access, user.email, role, 900)
  {
    hide Exec, LoadedAt, SignedAt;
    var start := Fresh(now, roles);
    EveryRunSourced(p, now, roles, steps);
    assert Sourced(p, start, steps, id, Done(AccessIssued(token, access)));
    user, role :| NamesUser(p, token, user) && AccessFrom(p, start, steps, id, user, role, access, 900);
    k, k1 :| OneFrom(p, start, steps, k, k1, id, user, role, access, 900);
  }

  /** In every run, both tokens of a completed sign-in carry the email and role of its account as they were stored
    * at the step that loaded it, for 36000 and 604800 seconds from the steps that signed them. */
  lemma CompletedSignInCarries(
      p: Platform, now: nat, roles: map<string, Role>, steps: seq<Step>,
      id: nat, u: string, access: string, refresh: string)
    returns (k: nat, k1: nat, k2: nat, user: User, role: Option<Role>)
    requires Sound(p)
    requires var s := Exec(p, Fresh(now, roles), steps);
      id in s.calls && s.calls[id] == Done(TokensIssued(u, access, refresh))
    ensures user.id == u && k < k1 < k2 && LoadedAt(p, Fresh(now, roles), steps, k, id, user, role)
    ensures SignedAt(p, Fresh(now, roles), steps, k1, id, access, user.email, role, 36000)
    ensures SignedAt(p, Fresh(now, roles), steps, k2, id, refresh, user.email, role, 604800)
  {
    hide Exec, LoadedAt, SignedAt;
    var start := Fresh(now, roles);
    EveryRunSourced(p, now, roles, steps);
    assert Sourced(p, start, steps, id, Done(TokensIssued(u, access, refresh)));
    user, role :| user.id == u && BothFrom(p, start, steps, id, user, role, access, refresh);
    k, k1, k2 :| TwoFrom(p, start, steps, k, k1, k2, id, user, role, access, refresh);
  }
}

/** What the invariant says about whole runs: every interleaving, every pattern of swallowed cache errors. */
module AuthTheorems {
  import opened Wrappers
  import opened CacheKeys
  import opened Accounts
  import opened Tokens
  import opened Redis
  import opened AuthMachine
  import opened AuthInvariants
  import opened AuthRuns

  // ----- the log read without recursion -----

  /** The SET at place i took effect and no DEL after it did. */
  ghost predicate StoredLast(log: seq<Event>, i: nat, u: string, t: string) {
    i < |log| && log[i] == Stored(u, t) && Revoked(u, t) !in log[i + 1..]
  }

  lemma StoredLastNote(log: seq<Event>, e: Event, i: nat, u: string, t: string)
    requires i < |log|
    ensures StoredLast(log + [e], i, u, t) <==> StoredLast(log, i, u, t) && e != Revoked(u, t)
  {
    assert (log + [e])[i + 1..] == log[i + 1..] + [e];
  }

  /** Held means: some SET took effect and no DEL took effect after it. */
  lemma {:induction false} HeldMeans(log: seq<Event>, u: string, t: string)
    ensures Held(log, u, t) <==> exists i :: StoredLast(log, i, u, t)
  {
    if log != [] {
      var n := |log| - 1;
      var past, e := log[..n], log[n];
      assert log == past + [e];
      HeldMeans(past, u, t);
      forall i: nat | i < n ensures StoredLast(log, i, u, t) <==> StoredLast(past, i, u, t) && e != Revoked(u, t) {
        StoredLastNote(past, e, i, u, t);
      }
      if e == Stored(u, t) {
        assert StoredLast(log, n, u, t);
      }
    }
  }

  /** An event of a justified log is justified. */
  lemma Justified(p: Platform, log: seq<Event>, e: Event) returns (j: nat)
    requires LogOk(p, log) && e in log
    ensures j < |log| && log[j] == e && EventOk(p, log, j)
  {
    j :| j < |log| && log[j] == e;
  }

  // ----- refresh tokens -----

  /** Step k resumed the call at its check of the token, when the clock showed `at`. */
  ghost predicate ChecksAt(p: Platform, start: World, steps: seq<Step>, k: nat, id: nat, token: string, at: nat) {
    k < |steps| && steps[k].Resume? && steps[k].id == id
    && var s := Exec(p, start, steps[..k]); id in s.calls && s.calls[id] == RefreshStart(token) && s.world.now == at
  }

  ghost predicate Checked(p: Platform, start: World, steps: seq<Step>, id: nat, token: string, at: nat) {
    exists k :: ChecksAt(p, start, steps, k, id, token, at)
  }

  /** Every instant a call or an event carries is that of such a step. */
  ghost predicate Anchored(p: Platform, start: World, steps: seq<Step>) {
    var s := Exec(p, start, steps);
    && (forall id :: id in s.calls && (s.calls[id].RefreshVerified? || s.calls[id].RefreshFound?) ==>
          Checked(p, start, steps, id, s.calls[id].token, s.calls[id].at))
    && (forall id, u, t, at :: Refreshed(id, u, t, at) in s.world.log ==> Checked(p, start, steps, id, t, at))
  }

  lemma CheckedGrows(p: Platform, start: World, steps: seq<Step>, step: Step, id: nat, token: string, at: nat)
    requires Checked(p, start, steps, id, token, at)
    ensures Checked(p, start, steps + [step], id, token, at)
  {
    hide Exec;
    var k: nat :| ChecksAt(p, start, steps, k, id, token, at);
    assert (steps + [step])[..k] == steps[..k];
    assert ChecksAt(p, start, steps + [step], k, id, token, at);
  }

  /** Where an instant in a call or an event of a turn comes from. */
  ghost predicate Carries(w: World, id: nat, c: Call, t: Turn) {
    && (t.call.RefreshVerified? ==> c.RefreshStart? && t.call.token == c.token && t.call.at == w.now)
    && (t.call.RefreshFound? ==> c.RefreshVerified? && t.call.token == c.token && t.call.at == c.at)
    && forall i, u, tok, at :: Refreshed(i, u, tok, at) in t.world.log ==>
         Refreshed(i, u, tok, at) in w.log || (c.RefreshFound? && i == id && tok == c.token && at == c.at)
  }

  lemma RefreshCarries(p: Platform, w: World, id: nat, c: Call, f: Fault)
    requires Refreshing(c)
    ensures Carries(w, id, c, RefreshTurn(p, w, id, c, f))
  {
  }

  lemma SignInCarries(p: Platform, w: World, id: nat, c: Call, f: Fault)
    requires SigningIn(c)
    ensures Carries(w, id, c, SignInTurn(p, w, c, f))
  {
  }

  lemma AccountCarries(p: Platform, w: World, id: nat, c: Call)
    ensures c.SignUpStart? || c.SignUpChecked? || c.SignUpRoled? ==> Carries(w, id, c, SignUpTurn(p, w, id, c))
    ensures c.ConfirmStart? || c.ConfirmFound? ==> Carries(w, id, c, ConfirmTurn(w, c))
  {
  }

  lemma LogoutCarries(p: Platform, w: World, id: nat, c: Call, f: Fault)
    requires c.LogoutStart? || c.LogoutVerified? || c.LogoutFound?
    ensures Carries(w, id, c, LogoutTurn(p, w, c, f))
  {
  }

  lemma ResetCarries(w: World, id: nat, c: Call, f: Fault)
    requires c.ResetStart? || c.ResetAllowed? || c.ResetFound? || c.ResetSaved?
    ensures Carries(w, id, c, ResetTurn(w, id, c, f))
  {
  }

  lemma DoneCarries(w: World, id: nat, c: Call)
    requires c.Done?
    ensures Carries(w, id, c, Turn(w, c))
  {
  }

  lemma TurnCarries(p: Platform, w: World, id: nat, c: Call, f: Fault)
    ensures Carries(w, id, c, Advance(p, w, id, c, f))
  {
    hide SignUpTurn, ConfirmTurn, SignInTurn, RefreshTurn, LogoutTurn, ResetTurn, Carries;
    AccountCarries(p, w, id, c);
    if SigningIn(c) {
      SignInCarries(p, w, id, c, f);
    } else if Refreshing(c) {
      RefreshCarries(p, w, id, c, f);
    } else if c.LogoutStart? || c.LogoutVerified? || c.LogoutFound? {
      LogoutCarries(p, w, id, c, f);
    } else if c.ResetStart? || c.ResetAllowed? || c.ResetFound? || c.ResetSaved? {
      ResetCarries(w, id, c, f);
    } else if c.Done? {
      DoneCarries(w, id, c);
    }
  }

  lemma NewCheck(p: Platform, start: World, before: seq<Step>, step: Step)
    requires step.Resume? && step.id in Exec(p, start, before).calls
    requires Exec(p, start, before).calls[step.id].RefreshStart?
    ensures var s := Exec(p, start, before);
      Checked(p, start, before + [step], step.id, s.calls[step.id].token, s.world.now)
  {
    assert (before + [step])[..|before|] == before;
    var s := Exec(p, start, before);
    assert ChecksAt(p, start, before + [step], |before|, step.id, s.calls[step.id].token, s.world.now);
  }

  lemma {:induction false} EveryRunAnchored(p: Platform, start: World, steps: seq<Step>)
    requires forall id, u, t, at :: Refreshed(id, u, t, at) !in start.log
    ensures Anchored(p, start, steps)
  {
    if steps != [] {
      hide Advance, Checked;
      var n := |steps| - 1;
      var before, step := steps[..n], steps[n];
      EveryRunAnchored(p, start, before);
      assert steps == before + [step];
      var s := Exec(p, start, before);
      if step.Resume? && step.id in s.calls {
        TurnCarries(p, s.world, step.id, s.calls[step.id], step.fault);
        if s.calls[step.id].RefreshStart? {
          NewCheck(p, start, before, step);
        }
      }
      forall id, t, at | Checked(p, start, before, id, t, at) ensures Checked(p, start, steps, id, t, at) {
        CheckedGrows(p, start, before, step, id, t, at);
      }
    }
  }

  /** A refresh that answered with an access token had: a sign-in that signed the token as its refresh
    * token; a step of its own at which it checked the token, unexpired by the clock of that step; and a cache
    * read that came after a SET of its key took effect with no DEL taking effect in between. */
  lemma RefreshIsJustified(
      p: Platform, now: nat, roles: map<string, Role>, steps: seq<Step>,
      id: nat, token: string, access: string) returns (j: nat, u: string, at: nat, i: nat, k: nat)
    requires Sound(p)
    requires var s := Exec(p, Fresh(now, roles), steps);
      id in s.calls && s.calls[id] == Done(AccessIssued(token, access))
    ensures var log := Exec(p, Fresh(now, roles), steps).world.log;
      && i < j < |log| && log[j] == Refreshed(id, u, token, at)
      && Issued(u, token) in log[..j]
      && ChecksAt(p, Fresh(now, roles), steps, k, id, token, at) && Verify(p, at, token).Some?
      && StoredLast(log[..j], i, u, token)
  {
    hide Exec, ChecksAt, UsersOk, AccountsOk, IssuedOk, RefreshOk, SessionsOk, ResetOk;
    var s := Exec(p, Fresh(now, roles), steps);
    EveryRunOk(p, now, roles, steps);
    EveryRunAnchored(p, Fresh(now, roles), steps);
    u, at :| Refreshed(id, u, token, at) in s.world.log;
    assert Checked(p, Fresh(now, roles), steps, id, token, at);
    k :| ChecksAt(p, Fresh(now, roles), steps, k, id, token, at);
    j := Justified(p, s.world.log, Refreshed(id, u, token, at));
    var past := s.world.log[..j];
    HeldMeans(past, u, token);
    i :| StoredLast(past, i, u, token);
  }

  /** The cache never turns away a refresh token that `verify` still accepts and nobody revoked. */
  lemma HeldIsLive(p: Platform, w: World, u: string, t: string)
    requires WorldOk(p, w) && NoColon(u) && Held(w.log, u, t) && Verify(p, w.now, t).Some?
    ensures Get(w.store, RefreshKey(u, t), w.now) == Some("active")
  {
  }

  /** Nor a session entry of an access token that `verify` still accepts. */
  lemma SessionIsLive(p: Platform, w: World, u: string, t: string)
    requires WorldOk(p, w) && SessionStored(u, t) in w.log && Verify(p, w.now, t).Some?
    ensures Get(w.store, SessionKey(u, t), w.now) == Some("active")
  {
  }

  /** At its cache read a pending refresh is let through exactly when the read succeeds, the token's key
    * was set and not deleted since, and its deadline has not passed. */
  lemma ReadDecides(p: Platform, w: World, id: nat, c: Call, f: Fault)
    requires WorldOk(p, w) && c.RefreshFound? && CallOk(p, w, id, c)
    ensures RefreshTurn(p, w, id, c, f).call.RefreshAllowed? <==>
      f == Fine && Held(w.log, c.user.id, c.token)
      && Live(w.store, RefreshKey(c.user.id, c.token), w.now)
    ensures f == Fine && Verify(p, w.now, c.token).Some? ==>
      (RefreshTurn(p, w, id, c, f).call.RefreshAllowed? <==> Held(w.log, c.user.id, c.token))
  {
  }

  /** An access token is never good as a refresh token: no key of that name is ever set. */
  lemma AccessIsNotRefresh(p: Platform, w: World, u: string, t: string, c: Claims)
    requires WorldOk(p, w) && NoColon(u) && p.decode(t) == Some(c) && c.exp < c.iat + WEEK
    ensures !Held(w.log, u, t) && Get(w.store, RefreshKey(u, t), w.now).None?
  {
  }

  // ----- what error-free runs add -----

  ghost predicate RefreshedBy(log: seq<Event>, id: nat, user: string, token: string) {
    exists at :: Refreshed(id, user, token, at) in log
  }

  /** Without errors each SET takes effect before the call moves on. */
  ghost predicate Clean(log: seq<Event>, id: nat, c: Call) {
    match c
    case SignInSessionSet(user, access, _) => SessionStored(user.id, access) in log
    case SignInSession(user, access, _) => SessionStored(user.id, access) in log
    case SignInRefreshSet(user, access, refresh) =>
      SessionStored(user.id, access) in log && Stored(user.id, refresh) in log
    case RefreshAllowed(token, user, _) => RefreshedBy(log, id, user.id, token)
    case RefreshSigned(token, user, _) => RefreshedBy(log, id, user.id, token)
    case RefreshSessionSet(token, user, access) =>
      RefreshedBy(log, id, user.id, token) && SessionStored(user.id, access) in log
    case Done(TokensIssued(u, access, refresh)) =>
      SessionStored(u, access) in log && Stored(u, refresh) in log
    case Done(AccessIssued(token, access)) =>
      exists u :: RefreshedBy(log, id, u, token) && SessionStored(u, access) in log
    case _ => true
  }

  /** Each completed sign-in had stored its refresh token before it completed. */
  ghost predicate CleanLog(log: seq<Event>) {
    forall j :: 0 <= j < |log| && log[j].SignedIn? ==> Stored(log[j].user, log[j].token) in log[..j]
  }

  ghost predicate AllClean(s: Sys) {
    CleanLog(s.world.log) && forall id :: id in s.calls ==> Clean(s.world.log, id, s.calls[id])
  }

  lemma CleanGrows(log: seq<Event>, log': seq<Event>, id: nat, c: Call)
    requires Clean(log, id, c) && log <= log'
    ensures Clean(log', id, c)
  {
    if c.Done? && c.outcome.AccessIssued? {
      var u :| RefreshedBy(log, id, u, c.outcome.token) && SessionStored(u, c.outcome.access) in log;
      assert RefreshedBy(log', id, u, c.outcome.token);
    }
  }

  lemma CleanLogNote(log: seq<Event>, e: Event)
    requires CleanLog(log) && (e.SignedIn? ==> Stored(e.user, e.token) in log)
    ensures CleanLog(log + [e])
  {
    var log' := log + [e];
    forall j | 0 <= j < |log'| && log'[j].SignedIn? ensures Stored(log'[j].user, log'[j].token) in log'[..j] {
      assert log'[..j] == if j < |log| then log[..j] else log;
    }
  }

  /** A turn that writes at most one event, and completes a sign-in only after its SET. */
  ghost predicate OneEvent(log: seq<Event>, log': seq<Event>) {
    log' == log || exists e :: log' == log + [e] && (e.SignedIn? ==> Stored(e.user, e.token) in log)
  }

  lemma CleanSignIn(p: Platform, w: World, id: nat, c: Call)
    requires SigningIn(c) && Clean(w.log, id, c)
    ensures var t := SignInTurn(p, w, c, Fine); Clean(t.world.log, id, t.call) && OneEvent(w.log, t.world.log)
  {
  }

  lemma CleanRefresh(p: Platform, w: World, id: nat, c: Call)
    requires Refreshing(c) && Clean(w.log, id, c)
    ensures var t := RefreshTurn(p, w, id, c, Fine); Clean(t.world.log, id, t.call) && OneEvent(w.log, t.world.log)
  {
    if c.RefreshFound? {
      InLog(w.log, Refreshed(id, c.user.id, c.token, c.at));
    } else if c.RefreshSigned? {
      var at :| Refreshed(id, c.user.id, c.token, at) in w.log;
      InLog(w.log, SessionStored(c.user.id, c.access));
      assert Refreshed(id, c.user.id, c.token, at) in w.log + [SessionStored(c.user.id, c.access)];
    }
  }

  /** The calls of which Clean says nothing. */
  predicate Idle(c: Call) {
    !SigningIn(c) && !Refreshing(c) && (c.Done? ==> !c.outcome.TokensIssued? && !c.outcome.AccessIssued?)
  }

  lemma IdleIsClean(log: seq<Event>, id: nat, c: Call)
    requires Idle(c)
    ensures Clean(log, id, c)
  {
  }

  lemma IdleTurn(p: Platform, w: World, id: nat, c: Call)
    requires Idle(c)
    ensures var t := Advance(p, w, id, c, Fine); Idle(t.call) && OneEvent(w.log, t.world.log)
  {
  }

  lemma SameLog(log: seq<Event>)
    ensures OneEvent(log, log)
  {
  }

  lemma CleanTurn(p: Platform, w: World, id: nat, c: Call)
    requires Clean(w.log, id, c)
    ensures var t := Advance(p, w, id, c, Fine); Clean(t.world.log, id, t.call) && OneEvent(w.log, t.world.log)
  {
    hide SignUpTurn, ConfirmTurn, SignInTurn, RefreshTurn, LogoutTurn, ResetTurn, Clean, OneEvent;
    if SigningIn(c) {
      CleanSignIn(p, w, id, c);
    } else if Refreshing(c) {
      CleanRefresh(p, w, id, c);
    } else if Idle(c) {
      IdleTurn(p, w, id, c);
      IdleIsClean(Advance(p, w, id, c, Fine).world.log, id, Advance(p, w, id, c, Fine).call);
    } else {
      SameLog(w.log);
    }
  }

  lemma NewIsClean(log: seq<Event>, id: nat, c: Call)
    requires Starts(c)
    ensures Clean(log, id, c)
  {
  }

  lemma CleanStep(p: Platform, s: Sys, step: Step)
    requires Sound(p) && SysOk(p, s) && (step.Resume? ==> step.fault == Fine)
    requires AllClean(s)
    ensures AllClean(Apply(p, s, step))
  {
    hide WorldOk, CallOk, Advance, Clean, CleanLog;
    var s' := Apply(p, s, step);
    if step.Resume? && step.id in s.calls {
      AdvanceKeeps(p, s.world, step.id, s.calls[step.id], Fine);
      CleanTurn(p, s.world, step.id, s.calls[step.id]);
      if s'.world.log != s.world.log {
        var e :| s'.world.log == s.world.log + [e] && (e.SignedIn? ==> Stored(e.user, e.token) in s.world.log);
        CleanLogNote(s.world.log, e);
      }
    } else if step.StoreReset? {
      CleanLogNote(s.world.log, ResetStored(step.user, step.token));
    }
    forall id | id in s'.calls ensures Clean(s'.world.log, id, s'.calls[id]) {
      if id in s.calls && s'.calls[id] == s.calls[id] {
        CleanGrows(s.world.log, s'.world.log, id, s.calls[id]);
      } else if step.Begin? {
        NewIsClean(s'.world.log, id, step.call);
      }
    }
  }

  lemma {:induction false} RunKeepsClean(p: Platform, s: Sys, steps: seq<Step>)
    requires Sound(p) && SysOk(p, s) && AllClean(s) && ErrorFree(steps)
    ensures AllClean(Run(p, s, steps))
  {
    if steps != [] {
      var before := steps[..|steps| - 1];
      RunKeepsClean(p, s, before);
      RunKeeps(p, s, before);
      CleanStep(p, Run(p, s, before), steps[|steps| - 1]);
    }
  }

  lemma EveryCleanRun(p: Platform, now: nat, roles: map<string, Role>, steps: seq<Step>)
    requires Sound(p) && ErrorFree(steps)
    ensures AllClean(Exec(p, Fresh(now, roles), steps))
  {
    EveryRunOk(p, now, roles, []);
    RunKeepsClean(p, Sys(Fresh(now, roles), map[]), steps);
  }

  lemma SignedInIssued(p: Platform, w: World, u: string, refresh: string)
    requires WorldOk(p, w) && SignInLogged(w.log, u, refresh)
    ensures NoColon(u) && Issued(u, refresh) in w.log
  {
    var email :| SignedIn(u, email, refresh) in w.log;
    var j := Justified(p, w.log, SignedIn(u, email, refresh));
    assert Issued(u, refresh) in w.log && IssuedFact(p, w, u, refresh);
  }

  /** After any error-free run, each completed sign-in has a session entry for its access token as long as
    * `verify` accepts that token; it had set the entry of its refresh token before it completed; and that
    * entry is there as long as `verify` accepts the token and some SET of it has no DEL after it. */
  lemma CompletedSignInIsCached(
      p: Platform, now: nat, roles: map<string, Role>, steps: seq<Step>,
      id: nat, u: string, access: string, refresh: string)
    requires Sound(p) && ErrorFree(steps)
    requires var s := Exec(p, Fresh(now, roles), steps);
      id in s.calls && s.calls[id] == Done(TokensIssued(u, access, refresh))
    ensures var w := Exec(p, Fresh(now, roles), steps).world;
      && (Verify(p, w.now, access).Some? ==>
            Get(w.store, SessionKey(u, access), w.now) == Some("active"))
      && (exists email :: SignedIn(u, email, refresh) in w.log)
      && (forall j, email :: 0 <= j < |w.log| && w.log[j] == SignedIn(u, email, refresh) ==>
            Stored(u, refresh) in w.log[..j])
      && (Verify(p, w.now, refresh).Some? && (exists i :: StoredLast(w.log, i, u, refresh)) ==>
            Get(w.store, RefreshKey(u, refresh), w.now) == Some("active"))
  {
    hide WorldOk, Exec, Held, Get, Verify;
    var w := Exec(p, Fresh(now, roles), steps).world;
    EveryRunOk(p, now, roles, steps);
    EveryCleanRun(p, now, roles, steps);
    assert Clean(w.log, id, Done(TokensIssued(u, access, refresh)));
    if Verify(p, w.now, access).Some? {
      SessionIsLive(p, w, u, access);
    }
    assert SignInLogged(w.log, u, refresh);
    SignedInIssued(p, w, u, refresh);
    HeldMeans(w.log, u, refresh);
    if Verify(p, w.now, refresh).Some? && Held(w.log, u, refresh) {
      HeldIsLive(p, w, u, refresh);
    }
  }

  /** After any error-free run, each completed refresh has a session entry for its new access token, under the
    * account whose entry it read, as long as `verify` accepts that token. */
  lemma CompletedRefreshIsCached(
      p: Platform, now: nat, roles: map<string, Role>, steps: seq<Step>,
      id: nat, token: string, access: string) returns (u: string)
    requires Sound(p) && ErrorFree(steps)
    requires var s := Exec(p, Fresh(now, roles), steps);
      id in s.calls && s.calls[id] == Done(AccessIssued(token, access))
    ensures var w := Exec(p, Fresh(now, roles), steps).world;
      && RefreshedBy(w.log, id, u, token) && SessionStored(u, access) in w.log
      && (Verify(p, w.now, access).Some? ==>
            Get(w.store, SessionKey(u, access), w.now) == Some("active"))
  {
    hide WorldOk, Exec, Get, Verify, RefreshedBy;
    var w := Exec(p, Fresh(now, roles), steps).world;
    EveryRunOk(p, now, roles, steps);
    EveryCleanRun(p, now, roles, steps);
    assert Clean(w.log, id, Done(AccessIssued(token, access)));
    u :| RefreshedBy(w.log, id, u, token) && SessionStored(u, access) in w.log;
    if Verify(p, w.now, access).Some? {
      SessionIsLive(p, w, u, access);
    }
  }

  // ----- accounts -----

  lemma OneRegistration(p: Platform, s: Sys, i: nat, j: nat, email: string)
    requires SysOk(p, s) && i in s.calls && j in s.calls
    requires s.calls[i] == Done(SignedUp(email)) && s.calls[j] == Done(SignedUp(email))
    ensures i == j
  {
    var log := s.world.log;
    assert CallOk(p, s.world, i, s.calls[i]) && CallOk(p, s.world, j, s.calls[j]);
    var u :| Registered(i, u, email) in log;
    var v :| Registered(j, v, email) in log;
    var a := Justified(p, log, Registered(i, u, email));
    var b := Justified(p, log, Registered(j, v, email));
    assert a == b;
  }

  /** Emails are unique and in lower case, and each account was registered by one completed sign-up. */
  lemma AccountsUnique(p: Platform, now: nat, roles: map<string, Role>, steps: seq<Step>)
    requires Sound(p)
    ensures var s := Exec(p, Fresh(now, roles), steps);
      && UniqueRows(s.world.users)
      && (forall u :: u in s.world.users ==> p.lower(u.email) == u.email)
      && (forall i, j, e :: i in s.calls && j in s.calls
            && s.calls[i] == Done(SignedUp(e)) && s.calls[j] == Done(SignedUp(e))
            ==> i == j)
  {
    var s := Exec(p, Fresh(now, roles), steps);
    EveryRunOk(p, now, roles, steps);
    forall i, j, e | i in s.calls && j in s.calls
      && s.calls[i] == Done(SignedUp(e)) && s.calls[j] == Done(SignedUp(e))
      ensures i == j
    {
      OneRegistration(p, s, i, j, e);
    }
  }

  /** A sign-up for the email, in some casing, that has not succeeded and can only end in a conflict. */
  ghost predicate Doomed(p: Platform, s: Sys, id: nat, email: string, roleName: string) {
    && (exists u :: u in s.world.users && u.email == p.lower(email))
    && roleName != "" && roleName in s.world.roles && id in s.calls
    && var c := s.calls[id];
      if c.SignUpStart? || c.SignUpChecked? || c.SignUpRoled? then c.email == email && c.roleName == roleName
      else c == Done(Failed(Conflict))
  }

  lemma EmailStays(rows: seq<User>, rows': seq<User>, email: string)
    requires Kept(rows, rows') && exists u :: u in rows && u.email == email
    ensures exists u :: u in rows' && u.email == email
  {
  }

  lemma DoomedStep(p: Platform, s: Sys, step: Step, id: nat, email: string, roleName: string)
    requires Sound(p) && SysOk(p, s) && Doomed(p, s, id, email, roleName)
    ensures Doomed(p, Apply(p, s, step), id, email, roleName)
  {
    hide WorldOk, CallOk, SignInTurn, RefreshTurn, LogoutTurn, ResetTurn, ConfirmTurn;
    var s' := Apply(p, s, step);
    if step.Resume? && step.id in s.calls {
      AdvanceKeeps(p, s.world, step.id, s.calls[step.id], step.fault);
    }
    EmailStays(s.world.users, s'.world.users, p.lower(email));
  }

  /** Once an account has the lower-cased email, a sign-up with that email in any casing and a role that
    * exists ends in a conflict, however it interleaves with everything else. */
  lemma {:induction false} DuplicateConflicts(
      p: Platform, s: Sys, id: nat, email: string, roleName: string, steps: seq<Step>)
    requires Sound(p) && SysOk(p, s) && Doomed(p, s, id, email, roleName)
    ensures Doomed(p, Run(p, s, steps), id, email, roleName)
    ensures var c := Run(p, s, steps).calls[id]; c.Done? ==> c == Done(Failed(Conflict))
  {
    if steps != [] {
      var before := steps[..|steps| - 1];
      DuplicateConflicts(p, s, id, email, roleName, before);
      RunKeeps(p, s, before);
      DoomedStep(p, Run(p, s, before), steps[|steps| - 1], id, email, roleName);
    }
  }

  /** A sign-in under E' loads the account registered under E exactly when their lower cases agree
    * (and are accepted as an email at all). */
  lemma SignInFinds(p: Platform, w: World, registered: User, raw: string, raw': string)
    requires WorldOk(p, w) && registered in w.users && registered.email == p.lower(raw)
    ensures FindByEmail(w.users, p.lower(raw')) == Some(registered) <==> p.lower(raw') == p.lower(raw)
  {
  }

  /** A completed sign-in comes after a registration of that account and a later confirmation. */
  lemma SignInNeedsConfirmation(
      p: Platform, now: nat, roles: map<string, Role>, steps: seq<Step>,
      id: nat, u: string, access: string, refresh: string) returns (i: nat, j: nat, k: nat, email: string)
    requires Sound(p)
    requires var s := Exec(p, Fresh(now, roles), steps);
      id in s.calls && s.calls[id] == Done(TokensIssued(u, access, refresh))
    ensures var log := Exec(p, Fresh(now, roles), steps).world.log;
      && i < j < k < |log|
      && log[i].Registered? && log[i].user == u && log[i].email == email
      && log[j] == Confirmed(u, email)
      && log[k] == SignedIn(u, email, refresh)
  {
    hide Exec, UsersOk, AccountsOk, IssuedOk, RefreshOk, SessionsOk, ResetOk;
    var s := Exec(p, Fresh(now, roles), steps);
    EveryRunOk(p, now, roles, steps);
    assert CallOk(p, s.world, id, s.calls[id]);
    email :| SignedIn(u, email, refresh) in s.world.log;
    k := Justified(p, s.world.log, SignedIn(u, email, refresh));
    var past := s.world.log[..k];
    i, j :| 0 <= i < j < |past|
      && past[i].Registered? && past[i].user == u && past[i].email == email
      && past[j] == Confirmed(u, email);
  }

  // ----- password resets -----

  /** The calls whose read of the token stored at `source` succeeded. */
  ghost function Readers(log: seq<Event>, source: nat): set<nat> {
    set i | 0 <= i < |log| && log[i].ResetRead? && log[i].source == source :: log[i].call
  }

  /** How many password changes the token stored at `source` authorised. */
  ghost function Changes(log: seq<Event>, source: nat): nat {
    if log == [] then 0
    else
      var n := |log| - 1;
      Changes(log[..n], source) + if log[n].PasswordChanged? && log[n].source == source then 1 else 0
  }

  ghost function Changers(log: seq<Event>, source: nat): set<nat> {
    set i | 0 <= i < |log| && log[i].PasswordChanged? && log[i].source == source :: log[i].call
  }

  /** Each call changes a password at most once, so changes are counted by the calls that made them. */
  lemma {:induction false} ChangesAreCalls(p: Platform, log: seq<Event>, source: nat)
    requires LogOk(p, log)
    ensures Changes(log, source) == |Changers(log, source)|
  {
    if log != [] {
      var n := |log| - 1;
      var past, e := log[..n], log[n];
      forall j | 0 <= j < n ensures EventOk(p, past, j) {
        assert past[..j] == log[..j];
        assert EventOk(p, log, j);
      }
      ChangesAreCalls(p, past, source);
      if e.PasswordChanged? && e.source == source {
        assert EventOk(p, log, n);
        assert e.call !in Changers(past, source);
        assert Changers(log, source) == Changers(past, source) + {e.call};
      } else {
        assert Changers(log, source) == Changers(past, source);
      }
    }
  }

  /** Each successful read found the token stored at `source`, with no DEL of it in between. */
  ghost predicate ReadsPrecedeDelete(log: seq<Event>, source: nat) {
    forall j :: 0 <= j < |log| && log[j].ResetRead? && log[j].source == source ==>
      source < j && log[source].ResetStored? && log[source].user == log[j].user
      && ResetDeleted(log[j].user) !in log[source + 1..j]
  }

  lemma ReadsJustified(p: Platform, log: seq<Event>, source: nat)
    requires LogOk(p, log)
    ensures ReadsPrecedeDelete(log, source)
  {
    forall j | 0 <= j < |log| && log[j].ResetRead? && log[j].source == source
      ensures source < j && log[source].ResetStored? && log[source].user == log[j].user
      ensures ResetDeleted(log[j].user) !in log[source + 1..j]
    {
      assert EventOk(p, log, j);
      assert Holding(log[..j], log[j].user) == Some(source);
    }
  }

  lemma ChangersRead(p: Platform, log: seq<Event>, source: nat)
    requires LogOk(p, log)
    ensures Changers(log, source) <= Readers(log, source)
  {
    forall j | 0 <= j < |log| && log[j].PasswordChanged? && log[j].source == source
      ensures log[j].call in Readers(log, source)
    {
      assert EventOk(p, log, j);
      var i :| 0 <= i < j && log[i] == ResetRead(log[j].call, log[j].user, source);
    }
  }

  lemma SubsetSize(a: set<nat>, b: set<nat>)
    requires a <= b
    ensures |a| <= |b|
  {
    assert b == a + (b - a);
  }

  /** One stored reset token authorises no more password changes than there were calls that read it,
    * and every such read came before the first DEL of it to take effect. */
  lemma ResetChangesBounded(
      p: Platform, now: nat, roles: map<string, Role>, steps: seq<Step>, source: nat)
    requires Sound(p)
    ensures var log := Exec(p, Fresh(now, roles), steps).world.log;
      Changes(log, source) <= |Readers(log, source)| && ReadsPrecedeDelete(log, source)
  {
    var log := Exec(p, Fresh(now, roles), steps).world.log;
    EveryRunOk(p, now, roles, steps);
    assert LogOk(p, log);
    ChangesAreCalls(p, log, source);
    ChangersRead(p, log, source);
    SubsetSize(Changers(log, source), Readers(log, source));
    ReadsJustified(p, log, source);
  }
}

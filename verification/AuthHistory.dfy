/** In a sequential error-free run the cache and the token check decide exactly what the history says. */
module AuthHistory {
  import opened Wrappers
  import opened CacheKeys
  import opened Accounts
  import opened Tokens
  import opened Redis
  import opened AuthMachine
  import opened AuthInvariants
  import opened AuthPreservation
  import opened AuthRuns
  import opened AuthTheorems
  import opened AuthSequential

  // ----- sequential runs are runs -----

  lemma OpIsRun(p: Platform, s: Sys, id: nat, op: Op) returns (steps: seq<Step>)
    requires Possible(op) && id !in s.calls
    ensures ErrorFree(steps)
    ensures Run(p, s, steps).world == After(p, s.world, id, op)
    ensures forall i :: i in Run(p, s, steps).calls ==> i in s.calls || i == id
  {
    match op
    case Env(step) =>
      steps := [step];
      assert steps[..0] == [];
      assert Run(p, s, steps) == Apply(p, s, step);
    case Act(call) =>
      var s' := Apply(p, s, Begin(id, call));
      assert TurnsLeft(call) <= LONGEST;
      var rest := AloneIsRun(p, s', id, ALWAYS_FINE, 0);
      steps := [Begin(id, call)] + rest;
      RunCons(p, s, Begin(id, call), rest);
  }

  lemma {:induction false} SequenceIsRun(p: Platform, now: nat, roles: map<string, Role>, ops: seq<Op>)
    returns (steps: seq<Step>)
    requires Sound(p) && forall i :: 0 <= i < |ops| ==> Possible(ops[i])
    ensures ErrorFree(steps)
    ensures var s := Exec(p, Fresh(now, roles), steps);
      s.world == Sequence(p, Fresh(now, roles), ops) && forall id :: id in s.calls ==> id < |ops|
  {
    if ops == [] {
      steps := [];
    } else {
      var n := |ops| - 1;
      var before := SequenceIsRun(p, now, roles, ops[..n]);
      var more := OpIsRun(p, Exec(p, Fresh(now, roles), before), n, ops[n]);
      steps := before + more;
      RunAppend(p, Sys(Fresh(now, roles), map[]), before, more);
    }
  }

  lemma SequenceOk(p: Platform, now: nat, roles: map<string, Role>, ops: seq<Op>)
    requires Sound(p) && forall i :: 0 <= i < |ops| ==> Possible(ops[i])
    ensures WorldOk(p, Sequence(p, Fresh(now, roles), ops))
  {
    var steps := SequenceIsRun(p, now, roles, ops);
    EveryRunOk(p, now, roles, steps);
  }

  // ----- the client's history and the log -----

  /** The latest word of the history on the token is a sign-in. */
  ghost predicate LiveIn(h: seq<Api>, t: string) {
    if h == [] then false
    else
      var e := h[|h| - 1];
      if e.GotTokens? && e.refresh == t then true
      else if e == AskedLogout(t) then false
      else LiveIn(h[..|h| - 1], t)
  }

  lemma LiveNote(h: seq<Api>, e: Api, t: string)
    ensures LiveIn(h + [e], t) ==
      if e.GotTokens? && e.refresh == t then true else if e == AskedLogout(t) then false else LiveIn(h, t)
  {
  }

  ghost predicate LatestGot(h: seq<Api>, i: nat, t: string) {
    i < |h| && h[i].GotTokens? && h[i].refresh == t && AskedLogout(t) !in h[i + 1..]
  }

  lemma {:induction false} LiveMeans(h: seq<Api>, t: string)
    ensures LiveIn(h, t) <==> exists i :: LatestGot(h, i, t)
  {
    if h != [] {
      var n := |h| - 1;
      var past, e := h[..n], h[n];
      LiveMeans(past, t);
      forall i: nat | i < n ensures LatestGot(h, i, t) <==> LatestGot(past, i, t) && e != AskedLogout(t) {
        assert h[i + 1..] == past[i + 1..] + [e];
      }
      if e.GotTokens? && e.refresh == t {
        assert LatestGot(h, n, t);
      }
    }
  }

  ghost predicate SomeoneHolds(log: seq<Event>, t: string) {
    exists u :: NoColon(u) && Held(log, u, t)
  }

  /** Handed-out tokens expire a week after they were handed out. */
  ghost predicate Dated(p: Platform, h: seq<Api>) {
    forall i :: 0 <= i < |h| && h[i].GotTokens? ==>
      p.decode(h[i].refresh).Some? && p.decode(h[i].refresh).value.exp == Seconds(h[i].at) + WEEK
  }

  /** History and log agree on every token that has not expired. */
  ghost predicate Agree(p: Platform, w: World, h: seq<Api>) {
    forall t :: Verify(p, w.now, t).Some? ==> (LiveIn(h, t) <==> SomeoneHolds(w.log, t))
  }

  // ----- one operation -----

  /** Calls that neither sign in nor log out. */
  predicate Aside(c: Call) {
    || c.SignUpStart? || c.SignUpChecked? || c.SignUpRoled? || c.ConfirmStart? || c.ConfirmFound?
    || Refreshing(c)
    || c.ResetStart? || c.ResetAllowed? || c.ResetFound? || c.ResetSaved? || c.Done?
  }

  ghost predicate SameHeld(log: seq<Event>, log': seq<Event>) {
    forall u, t :: Held(log', u, t) <==> Held(log, u, t)
  }

  lemma NoteSameHeld(log: seq<Event>, e: Event)
    requires !e.Stored? && !e.Revoked?
    ensures SameHeld(log, log + [e])
  {
  }

  lemma AsideTurn(p: Platform, w: World, id: nat, c: Call, f: Fault)
    requires Aside(c)
    ensures var t := Advance(p, w, id, c, f);
      Aside(t.call) && t.world.now == w.now
      && (t.world.log == w.log
          || exists e :: t.world.log == w.log + [e] && !e.Stored? && !e.Revoked?)
  {
  }

  lemma {:induction false} AsideAlone(p: Platform, w: World, id: nat, c: Call, k: nat)
    requires Aside(c) && k <= LONGEST
    ensures var t := RunAlone(p, w, id, c, ALWAYS_FINE, k);
      SameHeld(w.log, t.world.log) && t.world.now == w.now
    decreases LONGEST - k
  {
    hide Advance, Aside, Held, Holding, Sign, Set, Del, Get, Expire;
    if !c.Done? && k < LONGEST {
      AsideTurn(p, w, id, c, Fine);
      var t := Advance(p, w, id, c, Fine);
      if t.world.log != w.log {
        var e :| t.world.log == w.log + [e] && !e.Stored? && !e.Revoked?;
        NoteSameHeld(w.log, e);
      }
      AsideAlone(p, t.world, id, t.call, k + 1);
    }
  }

  /** Whoever holds an unexpired token is the account its email leads to. */
  lemma HolderIsTarget(p: Platform, w: World, u: string, t: string)
    requires WorldOk(p, w) && NoColon(u) && Held(w.log, u, t) && Verify(p, w.now, t).Some?
    ensures LogoutTarget(p, w, t).Some? && LogoutTarget(p, w, t).value.id == u
    ensures RefreshAccepts(p, w, t)
  {
  }

  /** An unexpired token is accepted exactly when some account holds it. */
  lemma AcceptedMeansHeld(p: Platform, w: World, t: string)
    requires WorldOk(p, w)
    ensures RefreshAccepts(p, w, t) <==> Verify(p, w.now, t).Some? && SomeoneHolds(w.log, t)
  {
  }

  lemma SignInHolds(log: seq<Event>, log': seq<Event>, user: User, access: string, refresh: string, t: string)
    requires NoColon(user.id)
    requires log' == log + [Issued(user.id, refresh)] + [SessionStored(user.id, access)]
      + [Stored(user.id, refresh)] + [SignedIn(user.id, user.email, refresh)]
    ensures SomeoneHolds(log', t) <==> t == refresh || SomeoneHolds(log, t)
  {
    var l1 := log + [Issued(user.id, refresh)];
    var l2 := l1 + [SessionStored(user.id, access)];
    var l3 := l2 + [Stored(user.id, refresh)];
    forall u ensures Held(log', u, t) <==> (u == user.id && t == refresh) || Held(log, u, t) {
      HeldNote(log, Issued(user.id, refresh), u, t);
      HeldNote(l1, SessionStored(user.id, access), u, t);
      HeldNote(l2, Stored(user.id, refresh), u, t);
      HeldNote(l3, SignedIn(user.id, user.email, refresh), u, t);
    }
  }

  lemma SignInAgrees(p: Platform, w: World, h: seq<Api>, id: nat, email: string, password: string)
    requires Sound(p) && WorldOk(p, w) && Agree(p, w, h) && Dated(p, h)
    ensures var op := Act(SignInStart(email, password));
      Agree(p, After(p, w, id, op), h + [Answer(p, w, id, op)])
      && Dated(p, h + [Answer(p, w, id, op)])
  {
    var op := Act(SignInStart(email, password));
    var w', e := After(p, w, id, op), Answer(p, w, id, op);
    SignInAlone(p, w, id, email, password);
    var checked := SignInCheck(p, w, p.lower(email), password);
    if !checked.Done? {
      FoundLoaded(p, w, checked.user);
    }
    forall t | Verify(p, w'.now, t).Some? ensures LiveIn(h + [e], t) <==> SomeoneHolds(w'.log, t) {
      LiveNote(h, e, t);
      if !checked.Done? {
        SignInHolds(w.log, w'.log, checked.user, Sign(p, w.now, checked.email, checked.role, TEN_HOURS), e.refresh, t);
      }
    }
  }

  lemma LogoutAgrees(p: Platform, w: World, h: seq<Api>, id: nat, token: string)
    requires WorldOk(p, w) && Agree(p, w, h)
    ensures Agree(p, After(p, w, id, Act(LogoutStart(token))), h + [AskedLogout(token)])
  {
    var w', e := After(p, w, id, Act(LogoutStart(token))), AskedLogout(token);
    LogoutAlone(p, w, id, token);
    forall t | Verify(p, w'.now, t).Some? ensures LiveIn(h + [e], t) <==> SomeoneHolds(w'.log, t) {
      LiveNote(h, e, t);
      forall u | NoColon(u) ensures Held(w'.log, u, t) <==> t != token && Held(w.log, u, t) {
        if Held(w.log, u, t) {
          HolderIsTarget(p, w, u, t);
        }
        if w' != w {
          HeldNote(w.log, Revoked(LogoutTarget(p, w, token).value.id, token), u, t);
        }
      }
    }
  }

  lemma AsideAgrees(p: Platform, w: World, h: seq<Api>, w': World)
    requires Agree(p, w, h) && SameHeld(w.log, w'.log) && w.now <= w'.now
    ensures Agree(p, w', h + [Other])
  {
  }

  lemma OpAgrees(p: Platform, w: World, h: seq<Api>, id: nat, op: Op)
    requires Sound(p) && WorldOk(p, w) && Agree(p, w, h) && Dated(p, h) && Possible(op)
    ensures Agree(p, After(p, w, id, op), h + [Answer(p, w, id, op)])
    ensures Dated(p, h + [Answer(p, w, id, op)])
  {
    hide WorldOk, Agree, RunAlone;
    match op
    case Env(step) =>
      if step.StoreReset? {
        NoteSameHeld(w.log, ResetStored(step.user, step.token));
      }
      AsideAgrees(p, w, h, After(p, w, id, op));
    case Act(call) =>
      if call.SignInStart? {
        SignInAgrees(p, w, h, id, call.email, call.password);
      } else if call.LogoutStart? {
        LogoutAgrees(p, w, h, id, call.token);
      } else {
        AsideAlone(p, w, id, call, 0);
        AsideAgrees(p, w, h, After(p, w, id, op));
      }
  }

  // ----- whole runs -----

  lemma {:induction false} SequenceAgrees(p: Platform, now: nat, roles: map<string, Role>, ops: seq<Op>)
    requires Sound(p) && forall i :: 0 <= i < |ops| ==> Possible(ops[i])
    ensures var w, h := Sequence(p, Fresh(now, roles), ops), History(p, Fresh(now, roles), ops);
      Agree(p, w, h) && Dated(p, h)
  {
    if ops != [] {
      var n := |ops| - 1;
      SequenceAgrees(p, now, roles, ops[..n]);
      SequenceOk(p, now, roles, ops[..n]);
      OpAgrees(p, Sequence(p, Fresh(now, roles), ops[..n]), History(p, Fresh(now, roles), ops[..n]), n, ops[n]);
    }
  }

  lemma HistoryMeans(p: Platform, h: seq<Api>, token: string, now: nat)
    requires Dated(p, h)
    ensures HistoryAllows(h, token, now) <==> LiveIn(h, token) && Verify(p, now, token).Some?
  {
    LiveMeans(h, token);
    if Verify(p, now, token).Some? && LiveIn(h, token) {
      var i :| LatestGot(h, i, token);
      assert GoodSince(h, i, token, now);
    }
    if HistoryAllows(h, token, now) {
      var i :| GoodSince(h, i, token, now);
      assert LatestGot(h, i, token);
    }
  }

  /** After any error-free sequential run a refresh of any string is answered with an access token
    * exactly when the history allows it. */
  lemma RefreshFollowsHistory(
      p: Platform, now: nat, roles: map<string, Role>, ops: seq<Op>, token: string)
    requires Sound(p) && forall i :: 0 <= i < |ops| ==> Possible(ops[i])
    ensures var w := Sequence(p, Fresh(now, roles), ops);
      Granted(RunAlone(p, w, |ops|, RefreshStart(token), ALWAYS_FINE, 0)) <==>
        HistoryAllows(History(p, Fresh(now, roles), ops), token, w.now)
  {
    hide WorldOk;
    var w := Sequence(p, Fresh(now, roles), ops);
    SequenceOk(p, now, roles, ops);
    SequenceAgrees(p, now, roles, ops);
    RefreshAlone(p, w, |ops|, token);
    AcceptedMeansHeld(p, w, token);
    HistoryMeans(p, History(p, Fresh(now, roles), ops), token, w.now);
  }

  // ----- password resets -----

  /** The log of a sequential run: a stored reset token that has authorised a change is gone. */
  ghost predicate UsedIsGone(log: seq<Event>) {
    forall k: nat ::
      Changes(log, k) <= 1 && (Changes(log, k) == 1 ==> forall u :: Holding(log, u) != Some(k))
  }

  predicate NoReset(e: Event) {
    !e.ResetStored? && !e.ResetDeleted? && !e.PasswordChanged?
  }

  lemma ChangesNote(log: seq<Event>, e: Event, k: nat)
    ensures Changes(log + [e], k) ==
      Changes(log, k) + if e.PasswordChanged? && e.source == k then 1 else 0
  {
  }

  lemma NoResetNote(log: seq<Event>, e: Event)
    requires UsedIsGone(log) && NoReset(e)
    ensures UsedIsGone(log + [e])
  {
  }

  /** A change of password that consumes its token. */
  lemma ChangeNote(log: seq<Event>, call: nat, u: string, k: nat)
    requires UsedIsGone(log) && Holding(log, u) == Some(k)
    ensures UsedIsGone(log + [PasswordChanged(call, u, k)] + [ResetDeleted(u)])
  {
    var e, d := PasswordChanged(call, u, k), ResetDeleted(u);
    var log' := log + [e] + [d];
    forall j: nat ensures Changes(log', j) == Changes(log, j) + if j == k then 1 else 0 {
      ChangesNote(log, e, j);
      ChangesNote(log + [e], d, j);
    }
    forall v ensures Holding(log', v) == if v == u then None else Holding(log, v) {
      HoldingNote(log, e, v);
      HoldingNote(log + [e], d, v);
    }
  }

  /** A newly stored token has authorised nothing. */
  lemma StoreNoteUsed(p: Platform, log: seq<Event>, e: Event)
    requires LogOk(p, log) && UsedIsGone(log) && e.ResetStored?
    ensures UsedIsGone(log + [e])
  {
    var log' := log + [e];
    ChangesAreCalls(p, log, |log|);
    ChangersRead(p, log, |log|);
    ReadsJustified(p, log, |log|);
    assert Changes(log, |log|) == 0 by {
      assert Readers(log, |log|) == {};
    }
    forall j: nat ensures Changes(log', j) == Changes(log, j) {
      ChangesNote(log, e, j);
    }
    forall v ensures Holding(log', v) == if v == e.user then Some(|log|) else Holding(log, v) {
      HoldingNote(log, e, v);
    }
  }

  predicate NotReset(c: Call) {
    !c.ResetStart? && !c.ResetAllowed? && !c.ResetFound? && !c.ResetSaved?
  }

  /** The log after a turn: at most two more events, none about resets. */
  ghost predicate LogsNoReset(log: seq<Event>, log': seq<Event>) {
    || log' == log
    || exists e :: NoReset(e) && (log' == log + [e] || exists e' :: NoReset(e') && log' == log + [e] + [e'])
  }

  lemma EventsOfFinish(p: Platform, w: World, id: nat, c: Call, f: Fault)
    requires c.SignInSession? || c.SignInRefreshSet?
    ensures NotReset(Advance(p, w, id, c, f).call)
    ensures LogsNoReset(w.log, Advance(p, w, id, c, f).world.log)
  {
    assert NoReset(Stored(c.user.id, c.refresh));
    assert NoReset(SignedIn(c.user.id, c.user.email, c.refresh));
  }

  lemma EventOfRefresh(p: Platform, w: World, id: nat, c: Call, f: Fault)
    requires Refreshing(c)
    ensures NotReset(RefreshTurn(p, w, id, c, f).call)
    ensures var log := RefreshTurn(p, w, id, c, f).world.log;
      log == w.log || exists e :: NoReset(e) && log == w.log + [e]
  {
  }

  lemma EventOfSignIn(p: Platform, w: World, c: Call, f: Fault)
    requires SigningIn(c) && !c.SignInSession? && !c.SignInRefreshSet?
    ensures NotReset(SignInTurn(p, w, c, f).call)
    ensures var log := SignInTurn(p, w, c, f).world.log;
      log == w.log || exists e :: NoReset(e) && log == w.log + [e]
  {
  }

  lemma EventOfTurn(p: Platform, w: World, id: nat, c: Call, f: Fault)
    requires NotReset(c) && !c.SignInSession? && !c.SignInRefreshSet?
    ensures NotReset(Advance(p, w, id, c, f).call)
    ensures var log := Advance(p, w, id, c, f).world.log;
      log == w.log || exists e :: NoReset(e) && log == w.log + [e]
  {
    hide SignInTurn, RefreshTurn;
    if SigningIn(c) {
      EventOfSignIn(p, w, c, f);
    } else if Refreshing(c) {
      EventOfRefresh(p, w, id, c, f);
    }
  }

  lemma EventsOfTurn(p: Platform, w: World, id: nat, c: Call, f: Fault)
    requires NotReset(c)
    ensures NotReset(Advance(p, w, id, c, f).call)
    ensures LogsNoReset(w.log, Advance(p, w, id, c, f).world.log)
  {
    if c.SignInSession? || c.SignInRefreshSet? {
      EventsOfFinish(p, w, id, c, f);
    } else {
      EventOfTurn(p, w, id, c, f);
    }
  }

  lemma NotResetTurn(p: Platform, w: World, id: nat, c: Call, f: Fault)
    requires NotReset(c) && UsedIsGone(w.log)
    ensures NotReset(Advance(p, w, id, c, f).call) && UsedIsGone(Advance(p, w, id, c, f).world.log)
  {
    hide UsedIsGone;
    var log := Advance(p, w, id, c, f).world.log;
    EventsOfTurn(p, w, id, c, f);
    if log != w.log {
      var e :| NoReset(e) && (log == w.log + [e] || exists e' :: NoReset(e') && log == w.log + [e] + [e']);
      NoResetNote(w.log, e);
      if log != w.log + [e] {
        var e' :| NoReset(e') && log == w.log + [e] + [e'];
        NoResetNote(w.log + [e], e');
      }
    }
  }

  lemma {:induction false} NotResetAlone(p: Platform, w: World, id: nat, c: Call, k: nat)
    requires NotReset(c) && UsedIsGone(w.log) && k <= LONGEST
    ensures UsedIsGone(RunAlone(p, w, id, c, ALWAYS_FINE, k).world.log)
    decreases LONGEST - k
  {
    if !c.Done? && k < LONGEST {
      NotResetTurn(p, w, id, c, Fine);
      var t := Advance(p, w, id, c, Fine);
      NotResetAlone(p, t.world, id, t.call, k + 1);
    }
  }

  lemma ResetUses(p: Platform, w: World, id: nat, userId: string, token: string, hash: string)
    requires WorldOk(p, w) && UsedIsGone(w.log)
    ensures UsedIsGone(RunAlone(p, w, id, ResetStart(userId, token, hash), ALWAYS_FINE, 0).world.log)
  {
    hide WorldOk, UsedIsGone;
    ResetEntry(p, w, userId);
    ResetAlone(p, w, id, userId, token, hash);
    var read := ResetTurn(w, id, ResetStart(userId, token, hash), Fine);
    if !read.call.Done? {
      var e := ResetRead(id, userId, read.call.source);
      NoResetNote(w.log, e);
      HoldingNote(w.log, e, userId);
      ChangeNote(w.log + [e], id, userId, read.call.source);
    }
  }

  /** In an error-free sequential run a stored reset token authorises at most one password change. */
  lemma {:induction false} ResetTokenUsedOnce(
      p: Platform, now: nat, roles: map<string, Role>, ops: seq<Op>)
    requires Sound(p) && forall i :: 0 <= i < |ops| ==> Possible(ops[i])
    ensures UsedIsGone(Sequence(p, Fresh(now, roles), ops).log)
  {
    if ops != [] {
      var n := |ops| - 1;
      var w, op := Sequence(p, Fresh(now, roles), ops[..n]), ops[n];
      ResetTokenUsedOnce(p, now, roles, ops[..n]);
      SequenceOk(p, now, roles, ops[..n]);
      match op
      case Env(step) =>
        if step.StoreReset? {
          StoreNoteUsed(p, w.log, ResetStored(step.user, step.token));
        }
      case Act(call) =>
        if call.ResetStart? {
          ResetUses(p, w, n, call.userId, call.token, call.hash);
        } else {
          NotResetAlone(p, w, n, call, 0);
        }
    }
  }
}

/** The invariant holds in every reachable state of every run. */
module AuthRuns {
  import opened Wrappers
  import opened CacheKeys
  import opened Accounts
  import opened Tokens
  import opened Redis
  import opened AuthMachine
  import opened AuthInvariants
  import opened AuthPreservation

  ghost predicate TurnKeeps(p: Platform, w: World, id: nat, t: Turn) {
    && WorldOk(p, t.world) && CallOk(p, t.world, id, t.call)
    && Evolves(w, t.world, Some(id)) && t.world.roles == w.roles
  }

  // ----- facts about loaded users and the log -----

  lemma InLog(log: seq<Event>, e: Event)
    ensures log <= log + [e] && e in log + [e]
    ensures forall x :: x in log ==> x in log + [e]
  {
  }

  lemma LoadedKept(w: World, w': World, user: User)
    requires Loaded(w, user) && Kept(w.users, w'.users) && w.log <= w'.log
    ensures Loaded(w', user)
  {
  }

  lemma FoundLoaded(p: Platform, w: World, user: User)
    requires WorldOk(p, w) && user in w.users
    ensures Loaded(w, user)
  {
  }

  lemma ChangedNote(log: seq<Event>, e: Event, call: nat)
    requires !Changed(log, call) && (e.PasswordChanged? ==> e.call != call)
    ensures !Changed(log + [e], call)
  {
  }

  /** A loaded user and a log that grows keep what a call relies on. */
  lemma CallStable(p: Platform, w: World, w': World, id: nat, c: Call, who: Option<nat>)
    requires CallOk(p, w, id, c) && Evolves(w, w', who) && who != Some(id)
    ensures CallOk(p, w', id, c)
  {
  }

  lemma LoggedKept(log: seq<Event>, log': seq<Event>, id: nat, token: string)
    requires RefreshLogged(log, id, token) && log <= log'
    ensures RefreshLogged(log', id, token)
  {
  }

  lemma IssuedGives(p: Platform, w: World, user: string, token: string)
    requires WorldOk(p, w) && Issued(user, token) in w.log
    ensures IssuedFact(p, w, user, token)
  {
  }

  lemma RowsUnique(p: Platform, w: World)
    requires WorldOk(p, w)
    ensures UniqueRows(w.users)
  {
  }

  // ----- one turn -----

  lemma RegisterKeeps(p: Platform, w: World, id: nat, user: User)
    requires WorldOk(p, w) && NoColon(user.id) && p.lower(user.email) == user.email && !user.verified
    requires FindByEmail(w.users, user.email).None? && FindById(w.users, user.id).None?
    ensures TurnKeeps(p, w, id, Turn(AddUser(w, id, user), Done(SignedUp(user.email))))
  {
    hide WorldOk;
    AddUserKeeps(p, w, id, user);
    InLog(w.log, Registered(id, user.id, user.email));
  }

  lemma SignUpTurnKeeps(p: Platform, w: World, id: nat, c: Call)
    requires Sound(p) && WorldOk(p, w) && CallOk(p, w, id, c)
    requires c.SignUpStart? || c.SignUpChecked? || c.SignUpRoled?
    ensures TurnKeeps(p, w, id, SignUpTurn(p, w, id, c))
  {
    hide WorldOk;
    var t := SignUpTurn(p, w, id, c);
    if c.SignUpRoled? && t.call == Done(SignedUp(p.lower(c.email))) {
      RegisterKeeps(p, w, id, User(c.newId, p.lower(c.email), c.hash, c.roleName, c.status, false));
    }
  }

  lemma OwnerRegistered(p: Platform, w: World, id: string, email: string)
    requires WorldOk(p, w) && Owns(w.users, id, email)
    ensures RegisteredAccount(w.log, id, email)
  {
  }

  lemma ConfirmSaves(p: Platform, w: World, user: User)
    requires WorldOk(p, w) && NoColon(user.id) && Owns(w.users, user.id, user.email)
    ensures var users := SaveRow(w.users, user.(verified := true, status := Active));
      Kept(w.users, users) && WorldOk(p, Note(w.(users := users), Confirmed(user.id, user.email)))
  {
    var e := Confirmed(user.id, user.email);
    OwnerRegistered(p, w, user.id, user.email);
    SaveKeeps(w.users, user.(verified := true, status := Active));
    hide WorldOk;
    var i :| 0 <= i < |w.log| && w.log[i].Registered? && w.log[i].user == user.id && w.log[i].email == user.email;
    assert (w.log + [e])[i] == w.log[i] && (w.log + [e])[|w.log|] == e;
    SaveKeeps'(p, w, user.(verified := true, status := Active), e);
  }

  lemma ConfirmTurnKeeps(p: Platform, w: World, id: nat, c: Call)
    requires WorldOk(p, w) && CallOk(p, w, id, c)
    requires c.ConfirmStart? || c.ConfirmFound?
    ensures TurnKeeps(p, w, id, ConfirmTurn(w, c))
  {
    hide WorldOk;
    if c.ConfirmFound? {
      ConfirmSaves(p, w, c.user);
    } else if FindByEmail(w.users, c.email).Some? {
      FoundLoaded(p, w, FindByEmail(w.users, c.email).value);
    }
  }

  lemma SignInAccessKeeps(p: Platform, w: World, id: nat, c: Call, f: Fault)
    requires Sound(p) && WorldOk(p, w) && c.SignInAccess? && CallOk(p, w, id, c)
    ensures TurnKeeps(p, w, id, SignInTurn(p, w, c, f))
  {
    hide WorldOk;
    var e := Issued(c.user.id, Sign(p, w.now, c.email, c.role, WEEK));
    assert IssuedFact(p, w, e.user, e.token);
    NoteKeeps(p, w, e);
    InLog(w.log, e);
    LoadedKept(w, Note(w, e), c.user);
  }

  lemma SignInTurnKeeps(p: Platform, w: World, id: nat, c: Call, f: Fault)
    requires Sound(p) && WorldOk(p, w) && CallOk(p, w, id, c)
    requires c.SignInStart? || c.SignInChecked?
    ensures TurnKeeps(p, w, id, SignInTurn(p, w, c, f))
  {
    hide WorldOk;
    if c.SignInStart? && FindByEmail(w.users, p.lower(c.email)).Some? {
      FoundLoaded(p, w, FindByEmail(w.users, p.lower(c.email)).value);
    }
  }

  lemma SignInSignedKeeps(p: Platform, w: World, id: nat, c: Call, f: Fault)
    requires WorldOk(p, w) && c.SignInSigned? && CallOk(p, w, id, c)
    ensures TurnKeeps(p, w, id, SignInTurn(p, w, c, f))
  {
    hide WorldOk;
    SetSessionKeeps(p, w, c.user.id, c.access, f);
    LoadedKept(w, SetSession(w, c.user.id, c.access, f), c.user);
  }

  lemma SignInSessionSetKeeps(p: Platform, w: World, id: nat, c: Call, f: Fault)
    requires WorldOk(p, w) && c.SignInSessionSet? && CallOk(p, w, id, c)
    ensures TurnKeeps(p, w, id, SignInTurn(p, w, c, f))
  {
    ExpireKeeps(p, w, SessionKey(c.user.id, c.access), c.user.id, c.access, DAY, f);
  }

  lemma FinishKeeps(p: Platform, w: World, user: User, refresh: string)
    requires WorldOk(p, w) && Loaded(w, user) && user.verified && Issued(user.id, refresh) in w.log
    ensures WorldOk(p, Note(w, SignedIn(user.id, user.email, refresh)))
    ensures SignInLogged(Note(w, SignedIn(user.id, user.email, refresh)).log, user.id, refresh)
  {
    InLog(w.log, SignedIn(user.id, user.email, refresh));
    assert (w.log + [SignedIn(user.id, user.email, refresh)])[..|w.log|] == w.log;
    NoteKeeps(p, w, SignedIn(user.id, user.email, refresh));
  }

  lemma FinishTurnKeeps(p: Platform, w: World, w': World, id: nat, user: User, access: string, refresh: string)
    requires WorldOk(p, w') && Evolves(w, w', Some(id)) && w'.roles == w.roles
    requires Loaded(w', user) && user.verified && Issued(user.id, refresh) in w'.log
    ensures TurnKeeps(p, w, id, FinishSignIn(w', user, access, refresh))
  {
    hide WorldOk, Loaded, SignInLogged;
    FinishKeeps(p, w', user, refresh);
  }

  lemma SetRefreshGrows(w: World, u: string, t: string, f: Fault, id: nat)
    ensures var w' := SetRefresh(w, u, t, f);
      Evolves(w, w', Some(id)) && w'.roles == w.roles && w'.users == w.users && w.log <= w'.log
  {
  }

  lemma SignInSessionKeeps(p: Platform, w: World, id: nat, c: Call, f: Fault)
    requires WorldOk(p, w) && c.SignInSession? && CallOk(p, w, id, c)
    ensures TurnKeeps(p, w, id, SignInTurn(p, w, c, f))
  {
    hide WorldOk, SetRefresh, FinishSignIn;
    var w' := SetRefresh(w, c.user.id, c.refresh, f);
    SetRefreshKeeps(p, w, c.user.id, c.refresh, f);
    SetRefreshGrows(w, c.user.id, c.refresh, f, id);
    LoadedKept(w, w', c.user);
    if f != Fine {
      hide TurnKeeps;
      FinishTurnKeeps(p, w, w', id, c.user, c.access, c.refresh);
    }
  }

  lemma SignInRefreshSetKeeps(p: Platform, w: World, id: nat, c: Call, f: Fault)
    requires WorldOk(p, w) && c.SignInRefreshSet? && CallOk(p, w, id, c)
    ensures TurnKeeps(p, w, id, SignInTurn(p, w, c, f))
  {
    hide WorldOk, FinishSignIn, TurnKeeps;
    IssuedGives(p, w, c.user.id, c.refresh);
    ExpireKeeps(p, w, RefreshKey(c.user.id, c.refresh), c.user.id, c.refresh, WEEK, f);
    var w' := ExpireKey(w, RefreshKey(c.user.id, c.refresh), WEEK, f);
    FinishTurnKeeps(p, w, w', id, c.user, c.access, c.refresh);
  }

  lemma RefreshTurnKeeps(p: Platform, w: World, id: nat, c: Call, f: Fault)
    requires WorldOk(p, w) && CallOk(p, w, id, c)
    requires c.RefreshStart? || c.RefreshVerified?
    ensures TurnKeeps(p, w, id, RefreshTurn(p, w, id, c, f))
  {
    hide WorldOk;
    if c.RefreshVerified? && FindByEmail(w.users, c.claims.email).Some? {
      FoundLoaded(p, w, FindByEmail(w.users, c.claims.email).value);
    }
  }

  /** A refresh entry found active was signed and stored, and not deleted since. */
  lemma ActiveEntry(p: Platform, w: World, user: string, token: string)
    requires WorldOk(p, w) && NoColon(user)
    ensures Get(w.store, RefreshKey(user, token), w.now) == Some("active") ==>
      Issued(user, token) in w.log && Held(w.log, user, token)
  {
  }

  lemma RefreshFoundKeeps(p: Platform, w: World, id: nat, c: Call, f: Fault)
    requires WorldOk(p, w) && c.RefreshFound? && CallOk(p, w, id, c)
    ensures TurnKeeps(p, w, id, RefreshTurn(p, w, id, c, f))
  {
    hide WorldOk;
    ActiveEntry(p, w, c.user.id, c.token);
    if GetKey(w, RefreshKey(c.user.id, c.token), f) == Some("active") {
      var e := Refreshed(id, c.user.id, c.token, c.at);
      assert (w.log + [e])[..|w.log|] == w.log;
      NoteKeeps(p, w, e);
      InLog(w.log, e);
      LoadedKept(w, Note(w, e), c.user);
    }
  }

  lemma RefreshStoreKeeps(p: Platform, w: World, id: nat, c: Call, f: Fault)
    requires Sound(p) && WorldOk(p, w) && CallOk(p, w, id, c)
    requires c.RefreshAllowed? || c.RefreshSessionSet?
    ensures TurnKeeps(p, w, id, RefreshTurn(p, w, id, c, f))
  {
    hide WorldOk;
    if c.RefreshSessionSet? {
      ExpireKeeps(p, w, SessionKey(c.user.id, c.access), c.user.id, c.access, DAY, f);
    }
  }

  lemma RefreshSignedKeeps(p: Platform, w: World, id: nat, c: Call, f: Fault)
    requires WorldOk(p, w) && c.RefreshSigned? && CallOk(p, w, id, c)
    ensures TurnKeeps(p, w, id, RefreshTurn(p, w, id, c, f))
  {
    hide WorldOk;
    SetSessionKeeps(p, w, c.user.id, c.access, f);
    LoadedKept(w, SetSession(w, c.user.id, c.access, f), c.user);
    LoggedKept(w.log, SetSession(w, c.user.id, c.access, f).log, id, c.token);
  }

  lemma LogoutTurnKeeps(p: Platform, w: World, id: nat, c: Call, f: Fault)
    requires WorldOk(p, w) && CallOk(p, w, id, c)
    requires c.LogoutStart? || c.LogoutVerified?
    ensures TurnKeeps(p, w, id, LogoutTurn(p, w, c, f))
  {
    hide WorldOk;
    if c.LogoutVerified? && FindByEmail(w.users, c.claims.email).Some? {
      FoundLoaded(p, w, FindByEmail(w.users, c.claims.email).value);
    }
  }

  lemma LogoutFoundKeeps(p: Platform, w: World, id: nat, c: Call, f: Fault)
    requires WorldOk(p, w) && c.LogoutFound? && CallOk(p, w, id, c)
    ensures TurnKeeps(p, w, id, LogoutTurn(p, w, c, f))
  {
    hide WorldOk;
    DelRefreshKeeps(p, w, c.user.id, c.token, f);
  }

  /** A reset token found in the cache was stored, and not deleted since. */
  lemma ResetEntry(p: Platform, w: World, user: string)
    requires WorldOk(p, w)
    ensures Get(w.store, ResetKey(user), w.now).Some? ==> Holding(w.log, user).Some?
  {
  }

  lemma ResetReadKeeps(p: Platform, w: World, id: nat, user: string, hash: string)
    requires WorldOk(p, w) && Holding(w.log, user).Some? && !Changed(w.log, id)
    ensures var source := Holding(w.log, user).value;
      TurnKeeps(p, w, id, Turn(Note(w, ResetRead(id, user, source)), ResetAllowed(user, hash, source)))
  {
    hide WorldOk, Holding;
    var e := ResetRead(id, user, Holding(w.log, user).value);
    assert (w.log + [e])[..|w.log|] == w.log;
    NoteKeeps(p, w, e);
    InLog(w.log, e);
    ChangedNote(w.log, e, id);
  }

  lemma ResetStartKeeps(p: Platform, w: World, id: nat, c: Call, f: Fault)
    requires WorldOk(p, w) && c.ResetStart? && CallOk(p, w, id, c)
    ensures TurnKeeps(p, w, id, ResetTurn(w, id, c, f))
  {
    ResetEntry(p, w, c.userId);
    if ResetTurn(w, id, c, f).call.ResetAllowed? {
      ResetReadKeeps(p, w, id, c.userId, c.hash);
      hide WorldOk, TurnKeeps;
    } else {
      hide WorldOk;
    }
  }

  lemma ResetFoundKeeps(p: Platform, w: World, id: nat, c: Call, f: Fault)
    requires WorldOk(p, w) && c.ResetFound? && CallOk(p, w, id, c)
    ensures TurnKeeps(p, w, id, ResetTurn(w, id, c, f))
  {
    hide WorldOk;
    RowsUnique(p, w);
    var e := PasswordChanged(id, c.user.id, c.source);
    var user' := c.user.(password := c.hash);
    assert (w.log + [e])[..|w.log|] == w.log;
    AccountsGrow(w.log, w.log + [e], c.user.id, c.user.email);
    SaveKeeps'(p, w, user', e);
    SaveKeeps(w.users, user');
  }

  lemma ResetAllowedKeeps(p: Platform, w: World, id: nat, c: Call, f: Fault)
    requires WorldOk(p, w) && c.ResetAllowed? && CallOk(p, w, id, c)
    ensures TurnKeeps(p, w, id, ResetTurn(w, id, c, f))
  {
    hide WorldOk, Loaded, Changed, SignInTurn, RefreshTurn, Holding, SaveRow, DelReset;
    if FindById(w.users, c.userId).Some? {
      FoundLoaded(p, w, FindById(w.users, c.userId).value);
    }
  }

  lemma ResetSavedKeeps(p: Platform, w: World, id: nat, c: Call, f: Fault)
    requires WorldOk(p, w) && c.ResetSaved?
    ensures TurnKeeps(p, w, id, ResetTurn(w, id, c, f))
  {
    hide WorldOk;
    if Effective(f) {
      ResetKeeps(p, w, DelReset(w, c.userId, f), c.userId, ResetDeleted(c.userId));
    }
  }

  lemma DoneKeeps(p: Platform, w: World, id: nat, c: Call)
    requires WorldOk(p, w) && CallOk(p, w, id, c)
    ensures TurnKeeps(p, w, id, Turn(w, c))
  {
  }

  lemma SigningInKeeps(p: Platform, w: World, id: nat, c: Call, f: Fault)
    requires Sound(p) && WorldOk(p, w) && CallOk(p, w, id, c) && SigningIn(c)
    ensures TurnKeeps(p, w, id, SignInTurn(p, w, c, f))
  {
    hide WorldOk, TurnKeeps, CallOk, SignInTurn;
    match c
    case SignInSigned(_, _, _) => SignInSignedKeeps(p, w, id, c, f);
    case SignInSessionSet(_, _, _) => SignInSessionSetKeeps(p, w, id, c, f);
    case SignInSession(_, _, _) => SignInSessionKeeps(p, w, id, c, f);
    case SignInRefreshSet(_, _, _) => SignInRefreshSetKeeps(p, w, id, c, f);
    case SignInAccess(_, _, _, _) => SignInAccessKeeps(p, w, id, c, f);
    case _ => SignInTurnKeeps(p, w, id, c, f);
  }

  lemma RefreshingKeeps(p: Platform, w: World, id: nat, c: Call, f: Fault)
    requires Sound(p) && WorldOk(p, w) && CallOk(p, w, id, c) && Refreshing(c)
    ensures TurnKeeps(p, w, id, RefreshTurn(p, w, id, c, f))
  {
    hide WorldOk, TurnKeeps, CallOk, RefreshTurn;
    match c
    case RefreshFound(_, _, _, _) => RefreshFoundKeeps(p, w, id, c, f);
    case RefreshAllowed(_, _, _) => RefreshStoreKeeps(p, w, id, c, f);
    case RefreshSigned(_, _, _) => RefreshSignedKeeps(p, w, id, c, f);
    case RefreshSessionSet(_, _, _) => RefreshStoreKeeps(p, w, id, c, f);
    case _ => RefreshTurnKeeps(p, w, id, c, f);
  }

  /** Every turn of every call, with any fault, keeps the invariant. */
  lemma AdvanceKeeps(p: Platform, w: World, id: nat, c: Call, f: Fault)
    requires Sound(p) && WorldOk(p, w) && CallOk(p, w, id, c)
    ensures TurnKeeps(p, w, id, Advance(p, w, id, c, f))
  {
    hide WorldOk, TurnKeeps, CallOk, SignUpTurn, ConfirmTurn, SignInTurn, RefreshTurn, LogoutTurn, ResetTurn;
    match c
    case SignUpStart(_, _, _, _, _) => SignUpTurnKeeps(p, w, id, c);
    case SignUpChecked(_, _, _, _, _) => SignUpTurnKeeps(p, w, id, c);
    case SignUpRoled(_, _, _, _, _) => SignUpTurnKeeps(p, w, id, c);
    case ConfirmStart(_) => ConfirmTurnKeeps(p, w, id, c);
    case ConfirmFound(_) => ConfirmTurnKeeps(p, w, id, c);
    case LogoutStart(_) => LogoutTurnKeeps(p, w, id, c, f);
    case LogoutVerified(_, _) => LogoutTurnKeeps(p, w, id, c, f);
    case LogoutFound(_, _) => LogoutFoundKeeps(p, w, id, c, f);
    case ResetStart(_, _, _) => ResetStartKeeps(p, w, id, c, f);
    case ResetAllowed(_, _, _) => ResetAllowedKeeps(p, w, id, c, f);
    case ResetFound(_, _, _) => ResetFoundKeeps(p, w, id, c, f);
    case ResetSaved(_) => ResetSavedKeeps(p, w, id, c, f);
    case Done(_) => DoneKeeps(p, w, id, c);
    case _ =>
      if SigningIn(c) {
        SigningInKeeps(p, w, id, c, f);
      } else {
        RefreshingKeeps(p, w, id, c, f);
      }
  }

  // ----- runs -----

  ghost predicate SysOk(p: Platform, s: Sys) {
    && WorldOk(p, s.world)
    && (forall id :: id in s.calls ==> CallOk(p, s.world, id, s.calls[id]))
    && (forall id :: Changed(s.world.log, id) ==> id in s.calls)
  }

  lemma OthersKeep(p: Platform, s: Sys, s': Sys, who: Option<nat>)
    requires SysOk(p, s) && Evolves(s.world, s'.world, who) && WorldOk(p, s'.world)
    requires forall id :: id in s.calls ==> id in s'.calls
    requires forall id :: id in s'.calls && Some(id) != who ==> id in s.calls && s'.calls[id] == s.calls[id]
    requires who.Some? ==> who.value in s'.calls && CallOk(p, s'.world, who.value, s'.calls[who.value])
    ensures SysOk(p, s')
  {
    forall id | id in s'.calls ensures CallOk(p, s'.world, id, s'.calls[id]) {
      if Some(id) != who {
        CallStable(p, s.world, s'.world, id, s.calls[id], who);
      }
    }
    forall id | Changed(s'.world.log, id) ensures id in s'.calls {
      var i :| 0 <= i < |s'.world.log| && s'.world.log[i].PasswordChanged? && s'.world.log[i].call == id;
      if i < |s.world.log| {
        assert s.world.log[i] == s'.world.log[i];
        assert Changed(s.world.log, id);
      }
    }
  }

  lemma TickKeeps(p: Platform, w: World, now: nat, roles: map<string, Role>)
    requires WorldOk(p, w) && w.now <= now
    ensures WorldOk(p, w.(now := now, roles := roles))
  {
  }

  lemma ApplyKeeps(p: Platform, s: Sys, step: Step)
    requires Sound(p) && SysOk(p, s)
    ensures SysOk(p, Apply(p, s, step))
  {
    hide WorldOk, CallOk, Advance;
    var s' := Apply(p, s, step);
    match step
    case Tick(ms) =>
      TickKeeps(p, s.world, s.world.now + ms, s.world.roles);
      OthersKeep(p, s, s', None);
    case SaveRole(role) =>
      TickKeeps(p, s.world, s.world.now, s.world.roles[role.name := role]);
      OthersKeep(p, s, s', None);
    case StoreReset(user, token, ttl) =>
      ResetKeeps(p, s.world, s'.world, user, ResetStored(user, token));
      OthersKeep(p, s, s', None);
    case Begin(id, call) =>
      if s' != s {
        OthersKeep(p, s, s', Some(id));
      }
    case Resume(id, fault) =>
      if id in s.calls {
        AdvanceKeeps(p, s.world, id, s.calls[id], fault);
        OthersKeep(p, s, s', Some(id));
      }
  }

  lemma {:induction false} RunKeeps(p: Platform, s: Sys, steps: seq<Step>)
    requires Sound(p) && SysOk(p, s)
    ensures SysOk(p, Run(p, s, steps))
  {
    if steps != [] {
      RunKeeps(p, s, steps[..|steps| - 1]);
      ApplyKeeps(p, Run(p, s, steps[..|steps| - 1]), steps[|steps| - 1]);
    }
  }

  /** Every run from a world without accounts keeps the invariant, whatever the interleaving and the errors. */
  lemma EveryRunOk(p: Platform, now: nat, roles: map<string, Role>, steps: seq<Step>)
    requires Sound(p)
    ensures SysOk(p, Exec(p, Fresh(now, roles), steps))
  {
    RunKeeps(p, Sys(Fresh(now, roles), map[]), steps);
  }
}

/** Each action on the world keeps the world invariant. */
module AuthPreservation {
  import opened Wrappers
  import opened CacheKeys
  import opened Accounts
  import opened Tokens
  import opened Redis
  import opened AuthMachine
  import opened AuthInvariants

  // ----- appending to the log -----

  lemma HeldNote(log: seq<Event>, e: Event, u: string, t: string)
    ensures Held(log + [e], u, t) ==
      if e == Stored(u, t) then true else if e == Revoked(u, t) then false else Held(log, u, t)
  {
  }

  lemma HoldingNote(log: seq<Event>, e: Event, u: string)
    ensures Holding(log + [e], u) ==
      if e.ResetStored? && e.user == u then Some(|log|)
      else if e == ResetDeleted(u) then None
      else Holding(log, u)
  {
  }

  lemma LogNote(p: Platform, log: seq<Event>, e: Event)
    requires LogOk(p, log) && EventOk(p, log + [e], |log|)
    ensures LogOk(p, log + [e])
  {
    forall j | 0 <= j < |log| ensures EventOk(p, log + [e], j) {
      assert (log + [e])[..j] == log[..j];
      assert EventOk(p, log, j);
    }
  }

  lemma AccountsGrow(log: seq<Event>, log': seq<Event>, u: string, email: string)
    requires log <= log'
    ensures RegisteredAccount(log, u, email) ==> RegisteredAccount(log', u, email)
    ensures ConfirmedAccount(log, u, email) ==> ConfirmedAccount(log', u, email)
  {
  }

  /** A longer log over the same accounts, registering nobody. */
  lemma AccountsNote(w: World, w': World, e: Event)
    requires AccountsOk(w) && w'.users == w.users && w'.log == w.log + [e] && !e.Registered?
    ensures AccountsOk(w')
  {
    forall i | 0 <= i < |w.users|
      ensures RegisteredAccount(w'.log, w.users[i].id, w.users[i].email)
      ensures w.users[i].verified ==> ConfirmedAccount(w'.log, w.users[i].id, w.users[i].email)
    {
      AccountsGrow(w.log, w'.log, w.users[i].id, w.users[i].email);
    }
  }

  lemma IssuedKept(p: Platform, w: World, w': World)
    requires IssuedOk(p, w) && Kept(w.users, w'.users) && w.now <= w'.now
    requires forall u, t :: Issued(u, t) in w'.log ==> Issued(u, t) in w.log || IssuedFact(p, w, u, t)
    ensures IssuedOk(p, w')
  {
  }

  /** One refresh key at most changes; the log says how. */
  lemma RefreshStep(p: Platform, w: World, w': World, e: Event)
    requires RefreshOk(p, w) && w'.log == w.log + [e]
    requires forall u, t {:trigger RefreshKey(u, t)} :: NoColon(u) ==>
      if e == Stored(u, t) then
        RefreshKey(u, t) in w'.store && Issued(u, t) in w.log
        && Outlasts(p, w'.store[RefreshKey(u, t)], t)
      else if e == Revoked(u, t) then RefreshKey(u, t) !in w'.store
      else
        (RefreshKey(u, t) in w.store <==> RefreshKey(u, t) in w'.store)
        && (RefreshKey(u, t) in w.store ==> w'.store[RefreshKey(u, t)] == w.store[RefreshKey(u, t)])
    ensures RefreshOk(p, w')
  {
  }

  lemma SessionsStep(p: Platform, w: World, w': World, e: Event)
    requires SessionsOk(p, w) && w'.log == w.log + [e]
    requires forall u, t {:trigger SessionKey(u, t)} :: NoColon(u) ==>
      if e == SessionStored(u, t) then
        SessionKey(u, t) in w'.store && Outlasts(p, w'.store[SessionKey(u, t)], t)
      else
        SessionKey(u, t) in w.store ==>
          SessionKey(u, t) in w'.store && w'.store[SessionKey(u, t)] == w.store[SessionKey(u, t)]
    requires e.SessionStored? ==> NoColon(e.user)
    ensures SessionsOk(p, w')
  {
  }

  lemma ResetStep(w: World, w': World, e: Event)
    requires ResetOk(w) && w'.log == w.log + [e]
    requires forall u {:trigger ResetKey(u)} ::
      if e.ResetStored? && e.user == u then
        ResetKey(u) in w'.store && w'.store[ResetKey(u)].value == e.token
      else if e == ResetDeleted(u) then ResetKey(u) !in w'.store
      else
        (ResetKey(u) in w.store <==> ResetKey(u) in w'.store)
        && (ResetKey(u) in w.store ==> w'.store[ResetKey(u)] == w.store[ResetKey(u)])
    ensures ResetOk(w')
  {
  }

  // ----- the actions -----

  /** Events that say nothing about the store or the accounts. */
  predicate Plain(e: Event) {
    e.Issued? || e.SignedIn? || e.Refreshed? || e.ResetRead?
  }

  lemma NoteKeeps(p: Platform, w: World, e: Event)
    requires WorldOk(p, w) && Plain(e)
    requires EventOk(p, w.log + [e], |w.log|)
    requires e.Issued? ==> IssuedFact(p, w, e.user, e.token)
    ensures WorldOk(p, Note(w, e))
  {
    var w' := Note(w, e);
    LogNote(p, w.log, e);
    AccountsNote(w, w', e);
    IssuedKept(p, w, w');
    RefreshStep(p, w, w', e);
    SessionsStep(p, w, w', e);
    ResetStep(w, w', e);
  }

  lemma SetRefreshKeeps(p: Platform, w: World, u: string, t: string, f: Fault)
    requires WorldOk(p, w) && NoColon(u) && Issued(u, t) in w.log
    ensures WorldOk(p, SetRefresh(w, u, t, f))
  {
    if Effective(f) {
      var w', e := SetRefresh(w, u, t, f), Stored(u, t);
      LogNote(p, w.log, e);
      AccountsNote(w, w', e);
      IssuedKept(p, w, w');
      forall u', t' | NoColon(u') ensures RefreshKey(u', t') == RefreshKey(u, t) <==> e == Stored(u', t') {
        RefreshKeyInjective(u', t', u, t);
      }
      forall u', t' ensures SessionKey(u', t') != RefreshKey(u, t) {
        FamiliesDisjoint(u', t', u, t, "");
      }
      forall u' ensures ResetKey(u') != RefreshKey(u, t) {
        FamiliesDisjoint("", "", u, t, u');
      }
      RefreshStep(p, w, w', e);
      SessionsStep(p, w, w', e);
      ResetStep(w, w', e);
    }
  }

  lemma DelRefreshKeeps(p: Platform, w: World, u: string, t: string, f: Fault)
    requires WorldOk(p, w) && NoColon(u)
    ensures WorldOk(p, DelRefresh(w, u, t, f))
  {
    if Effective(f) {
      var w', e := DelRefresh(w, u, t, f), Revoked(u, t);
      LogNote(p, w.log, e);
      AccountsNote(w, w', e);
      IssuedKept(p, w, w');
      forall u', t' | NoColon(u') ensures RefreshKey(u', t') == RefreshKey(u, t) <==> e == Revoked(u', t') {
        RefreshKeyInjective(u', t', u, t);
      }
      forall u', t' ensures SessionKey(u', t') != RefreshKey(u, t) {
        FamiliesDisjoint(u', t', u, t, "");
      }
      forall u' ensures ResetKey(u') != RefreshKey(u, t) {
        FamiliesDisjoint("", "", u, t, u');
      }
      RefreshStep(p, w, w', e);
      SessionsStep(p, w, w', e);
      ResetStep(w, w', e);
    }
  }

  lemma SetSessionKeeps(p: Platform, w: World, u: string, t: string, f: Fault)
    requires WorldOk(p, w) && NoColon(u) && p.decode(t).Some?
    ensures WorldOk(p, SetSession(w, u, t, f))
  {
    if Effective(f) {
      var w', e := SetSession(w, u, t, f), SessionStored(u, t);
      LogNote(p, w.log, e);
      AccountsNote(w, w', e);
      IssuedKept(p, w, w');
      forall u', t' | NoColon(u')
        ensures SessionKey(u', t') == SessionKey(u, t) <==> e == SessionStored(u', t')
      {
        SessionKeyInjective(u', t', u, t);
      }
      forall u', t' ensures RefreshKey(u', t') != SessionKey(u, t) {
        FamiliesDisjoint(u, t, u', t', "");
      }
      forall u' ensures ResetKey(u') != SessionKey(u, t) {
        FamiliesDisjoint(u, t, "", "", u');
      }
      RefreshStep(p, w, w', e);
      SessionsStep(p, w, w', e);
      ResetStep(w, w', e);
    }
  }

  /** Any change of one reset key that the event describes. */
  lemma ResetKeeps(p: Platform, w: World, w': World, u: string, e: Event)
    requires WorldOk(p, w) && w'.users == w.users && w'.now == w.now && w'.log == w.log + [e]
    requires forall k :: k != ResetKey(u) ==>
      (k in w.store <==> k in w'.store) && (k in w.store ==> w'.store[k] == w.store[k])
    requires
      || (e.ResetStored? && e.user == u && ResetKey(u) in w'.store
          && w'.store[ResetKey(u)].value == e.token)
      || (e == ResetDeleted(u) && ResetKey(u) !in w'.store)
    ensures WorldOk(p, w')
  {
    LogNote(p, w.log, e);
    AccountsNote(w, w', e);
    IssuedKept(p, w, w');
    forall u', t' ensures RefreshKey(u', t') != ResetKey(u) && SessionKey(u', t') != ResetKey(u) {
      FamiliesDisjoint(u', t', u', t', u);
    }
    forall u' ensures ResetKey(u') == ResetKey(u) <==> u' == u {
      ResetKeyInjective(u', u);
    }
    RefreshStep(p, w, w', e);
    SessionsStep(p, w, w', e);
    ResetStep(w, w', e);
  }

  lemma ExpireRefresh(p: Platform, w: World, w': World, key: string, u: string, t: string)
    requires RefreshOk(p, w) && w'.log == w.log && key in w.store
    requires exists d :: w'.store == w.store[key := Entry(w.store[key].value, Some(d))]
               && p.decode(t).Some? && p.decode(t).value.exp * 1000 <= d
    requires forall u', t' :: NoColon(u') && key == RefreshKey(u', t') ==> u' == u && t' == t
    ensures RefreshOk(p, w')
  {
  }

  lemma ExpireSessions(p: Platform, w: World, w': World, key: string, u: string, t: string)
    requires SessionsOk(p, w) && w'.log == w.log && key in w.store
    requires exists d :: w'.store == w.store[key := Entry(w.store[key].value, Some(d))]
               && p.decode(t).Some? && p.decode(t).value.exp * 1000 <= d
    requires forall u', t' :: NoColon(u') && key == SessionKey(u', t') ==> u' == u && t' == t
    ensures SessionsOk(p, w')
  {
  }

  /** EXPIRE on a refresh or session key sets a deadline past the token's own expiry. */
  lemma ExpireKeeps(p: Platform, w: World, key: string, u: string, t: string, seconds: nat, f: Fault)
    requires WorldOk(p, w) && NoColon(u)
    requires key == RefreshKey(u, t) || key == SessionKey(u, t)
    requires p.decode(t).Some? && p.decode(t).value.exp * 1000 <= w.now + 1000 * seconds
    ensures WorldOk(p, ExpireKey(w, key, seconds, f))
  {
    var w' := ExpireKey(w, key, seconds, f);
    if w' != w {
      forall u', t' | NoColon(u')
        ensures key == RefreshKey(u', t') || key == SessionKey(u', t') ==> u' == u && t' == t
      {
        RefreshKeyInjective(u', t', u, t);
        SessionKeyInjective(u', t', u, t);
        FamiliesDisjoint(u', t', u, t, "");
        FamiliesDisjoint(u, t, u', t', "");
      }
      forall u' ensures ResetKey(u') != key {
        FamiliesDisjoint(u, t, u, t, u');
      }
      ExpireRefresh(p, w, w', key, u, t);
      ExpireSessions(p, w, w', key, u, t);
      assert ResetOk(w');
    }
  }

  // ----- the accounts -----

  /** The store untouched, one event of no concern to it. */
  lemma StoreNote(p: Platform, w: World, w': World, e: Event)
    requires WorldOk(p, w) && w'.store == w.store && w'.now == w.now && w'.log == w.log + [e]
    requires Kept(w.users, w'.users)
    requires e.Registered? || e.Confirmed? || e.PasswordChanged?
    requires EventOk(p, w'.log, |w.log|)
    ensures IssuedOk(p, w') && RefreshOk(p, w') && SessionsOk(p, w') && ResetOk(w') && LogOk(p, w'.log)
  {
    LogNote(p, w.log, e);
    IssuedKept(p, w, w');
    RefreshStep(p, w, w', e);
    SessionsStep(p, w, w', e);
    ResetStep(w, w', e);
  }

  lemma UsersAdd(p: Platform, w: World, user: User)
    requires UsersOk(p, w) && NoColon(user.id) && p.lower(user.email) == user.email
    requires FindByEmail(w.users, user.email).None? && FindById(w.users, user.id).None?
    ensures UsersOk(p, w.(users := w.users + [user]))
  {
  }

  lemma AddUserKeeps(p: Platform, w: World, call: nat, user: User)
    requires WorldOk(p, w) && NoColon(user.id) && p.lower(user.email) == user.email && !user.verified
    requires FindByEmail(w.users, user.email).None? && FindById(w.users, user.id).None?
    ensures WorldOk(p, AddUser(w, call, user))
  {
    var w', e := AddUser(w, call, user), Registered(call, user.id, user.email);
    forall k | 0 <= k < |w.log| && w.log[k].Registered?
      ensures w.log[k].email != user.email && w.log[k].user != user.id
      ensures Owns(w'.users, w.log[k].user, w.log[k].email)
    {
      assert Owns(w.users, w.log[k].user, w.log[k].email);
      var i :| 0 <= i < |w.users| && w.users[i].id == w.log[k].user && w.users[i].email == w.log[k].email;
      assert w.users[i] in w.users && w'.users[i] == w.users[i];
    }
    StoreNote(p, w, w', e);
    UsersAdd(p, w, user);
    assert w'.log[|w.log|] == e;
    forall i | 0 <= i < |w'.users|
      ensures RegisteredAccount(w'.log, w'.users[i].id, w'.users[i].email)
      ensures w'.users[i].verified ==> ConfirmedAccount(w'.log, w'.users[i].id, w'.users[i].email)
    {
      if i < |w.users| {
        AccountsGrow(w.log, w'.log, w.users[i].id, w.users[i].email);
      }
    }
    assert w'.users[|w.users|] == user;
    assert Owns(w'.users, user.id, user.email);
  }

  /** Saving a user that was loaded at any earlier time, verified or not. */
  lemma SaveKeeps'(p: Platform, w: World, user: User, e: Event)
    requires WorldOk(p, w) && NoColon(user.id) && Owns(w.users, user.id, user.email)
    requires e.Confirmed? || e.PasswordChanged?
    requires EventOk(p, w.log + [e], |w.log|)
    requires user.verified ==> ConfirmedAccount(w.log + [e], user.id, user.email)
    ensures WorldOk(p, Note(w.(users := SaveRow(w.users, user)), e))
  {
    var w' := Note(w.(users := SaveRow(w.users, user)), e);
    SaveKeeps(w.users, user);
    StoreNote(p, w, w', e);
    forall i | 0 <= i < |w'.users|
      ensures p.lower(w'.users[i].email) == w'.users[i].email && NoColon(w'.users[i].id)
      ensures RegisteredAccount(w'.log, w'.users[i].id, w'.users[i].email)
      ensures w'.users[i].verified ==> ConfirmedAccount(w'.log, w'.users[i].id, w'.users[i].email)
    {
      AccountsGrow(w.log, w'.log, w.users[i].id, w.users[i].email);
    }
    forall k | 0 <= k < |w'.log| && w'.log[k].Registered?
      ensures Owns(w'.users, w'.log[k].user, w'.log[k].email)
    {
      OwnsKept(w.users, w'.users, w.log[k].user, w.log[k].email);
    }
  }
}

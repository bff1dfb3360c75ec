/** What turns and whole calls do to accounts, cache and tokens, written out in full. */
module AuthEffects {
  import opened Wrappers
  import opened CacheKeys
  import opened Accounts
  import opened Tokens
  import opened Redis
  import opened AuthMachine
  import opened AuthSequential

  // ----- one turn, in any state and under any error -----

  /** The row a turn leaves in place of an account. */
  function RowAfter(c: Call, row: User): User {
    if c.ConfirmFound? && row.id == c.user.id then c.user.(verified := true, status := Active)
    else if c.ResetFound? && row.id == c.user.id then c.user.(password := c.hash)
    else row
  }

  /** Rows keep their places; only a confirmation or a reset writes one, the one with the id it loaded; and only
    * a registration adds one, at the end. */
  ghost predicate RowsAfter(p: Platform, rows: seq<User>, c: Call, rows': seq<User>) {
    && |rows| <= |rows'|
    && (forall i :: 0 <= i < |rows| ==> rows'[i] == RowAfter(c, rows[i]))
    && (|rows'| == |rows|
        || (c.SignUpRoled? && rows'[|rows|..] == [User(c.newId, p.lower(c.email), c.hash, c.roleName, c.status, false)]))
  }

  /** The cache key a turn may write. */
  function KeyWritten(c: Call): Option<string> {
    match c
    case SignInSigned(user, access, _) => Some("session:" + user.id + ":" + access)
    case SignInSessionSet(user, access, _) => Some("session:" + user.id + ":" + access)
    case SignInSession(user, _, refresh) => Some("refresh:" + user.id + ":" + refresh)
    case SignInRefreshSet(user, _, refresh) => Some("refresh:" + user.id + ":" + refresh)
    case RefreshSigned(_, user, access) => Some("session:" + user.id + ":" + access)
    case RefreshSessionSet(_, user, access) => Some("session:" + user.id + ":" + access)
    case LogoutFound(token, user) => Some("refresh:" + user.id + ":" + token)
    case ResetSaved(userId) => Some("reset-password:" + userId)
    case _ => None
  }

  /** Every entry but the one of that key stays as it was. */
  ghost predicate EntriesKept(store: Store, store': Store, key: Option<string>) {
    forall k :: Some(k) != key ==>
      (k in store' <==> k in store) && (k in store ==> store'[k] == store[k])
  }

  ghost predicate Confined(p: Platform, w: World, c: Call, w': World) {
    && RowsAfter(p, w.users, c, w'.users) && EntriesKept(w.store, w'.store, KeyWritten(c))
    && w'.now == w.now && w'.roles == w.roles
  }

  lemma SignUpConfined(p: Platform, w: World, id: nat, c: Call)
    requires c.SignUpStart? || c.SignUpChecked? || c.SignUpRoled?
    ensures Confined(p, w, c, SignUpTurn(p, w, id, c).world)
  {
  }

  lemma ConfirmConfined(p: Platform, w: World, c: Call)
    requires c.ConfirmStart? || c.ConfirmFound?
    ensures Confined(p, w, c, ConfirmTurn(w, c).world)
  {
  }

  lemma SignInConfined(p: Platform, w: World, c: Call, f: Fault)
    requires SigningIn(c)
    ensures Confined(p, w, c, SignInTurn(p, w, c, f).world)
  {
  }

  lemma RefreshConfined(p: Platform, w: World, id: nat, c: Call, f: Fault)
    requires Refreshing(c)
    ensures Confined(p, w, c, RefreshTurn(p, w, id, c, f).world)
  {
  }

  lemma LogoutConfined(p: Platform, w: World, c: Call, f: Fault)
    requires c.LogoutStart? || c.LogoutVerified? || c.LogoutFound?
    ensures Confined(p, w, c, LogoutTurn(p, w, c, f).world)
  {
  }

  lemma ResetConfined(p: Platform, w: World, id: nat, c: Call, f: Fault)
    requires c.ResetStart? || c.ResetAllowed? || c.ResetFound? || c.ResetSaved?
    ensures Confined(p, w, c, ResetTurn(w, id, c, f).world)
  {
  }

  lemma DoneConfined(p: Platform, w: World, c: Call)
    requires c.Done?
    ensures Confined(p, w, c, w)
  {
  }

  /** In every state and under every error a turn writes at most the account it loaded and one cache key. */
  lemma TurnConfined(p: Platform, w: World, id: nat, c: Call, f: Fault)
    ensures Confined(p, w, c, Advance(p, w, id, c, f).world)
  {
    hide SignUpTurn, ConfirmTurn, SignInTurn, RefreshTurn, LogoutTurn, ResetTurn, Confined;
    if SigningIn(c) {
      SignInConfined(p, w, c, f);
    } else if Refreshing(c) {
      RefreshConfined(p, w, id, c, f);
    } else if c.LogoutStart? || c.LogoutVerified? || c.LogoutFound? {
      LogoutConfined(p, w, c, f);
    } else if c.ConfirmStart? || c.ConfirmFound? {
      ConfirmConfined(p, w, c);
    } else if c.SignUpStart? || c.SignUpChecked? || c.SignUpRoled? {
      SignUpConfined(p, w, id, c);
    } else if c.Done? {
      DoneConfined(p, w, c);
    } else {
      ResetConfined(p, w, id, c, f);
    }
  }

  /** What the world outside the calls does: time passes, a role is saved, a reset token is stored. */
  lemma OutsideSteps(p: Platform, s: Sys, ms: nat, role: Role, user: string, token: string, ttl: Option<nat>)
    ensures Apply(p, s, Tick(ms)) == Sys(s.world.(now := s.world.now + ms), s.calls)
    ensures var s' := Apply(p, s, SaveRole(role));
      && s'.calls == s.calls && s'.world == s.world.(roles := s'.world.roles)
      && role.name in s'.world.roles && s'.world.roles[role.name] == role
      && forall name :: name != role.name ==>
           (name in s'.world.roles <==> name in s.world.roles)
           && (name in s.world.roles ==> s'.world.roles[name] == s.world.roles[name])
    ensures var s' := Apply(p, s, StoreReset(user, token, ttl));
      var key := "reset-password:" + user;
      && s'.calls == s.calls && s'.world.users == s.world.users && s'.world.roles == s.world.roles
      && EntriesKept(s.world.store, s'.world.store, Some(key)) && key in s'.world.store
      && s'.world.store[key] ==
           Entry(token, match ttl case None => None case Some(n) => Some(s.world.now + 1000 * n))
  {
  }

  /** Each of the six calls may begin at any time, and changes nothing by that. */
  lemma CallsBegin(p: Platform, s: Sys, id: nat, c: Call)
    requires id !in s.calls
    requires (c.SignUpStart? && ':' !in c.newId) || c.ConfirmStart? || c.SignInStart? || c.RefreshStart?
          || c.LogoutStart? || c.ResetStart?
    ensures Apply(p, s, Begin(id, c)) == Sys(s.world, s.calls[id := c])
  {
  }

  // ----- whole calls -----

  /** Every account but the one with this id is the same value at the same place. */
  ghost predicate OthersSame(rows: seq<User>, rows': seq<User>, id: string) {
    |rows'| == |rows| && forall i :: 0 <= i < |rows| && rows[i].id != id ==> rows'[i] == rows[i]
  }

  lemma FoundAt(rows: seq<User>, id: string, user: User) returns (i: nat)
    requires user in rows && user.id == id
    ensures i < |rows| && rows[i] == user && rows[i].id == id
  {
    i :| i < |rows| && rows[i] == user;
  }

  /** A whole reset that goes through changes the password of its account, and nothing else of any account. */
  lemma ResetWritesOne(p: Platform, w: World, id: nat, userId: string, token: string, hash: string)
    requires UniqueRows(w.users)
    ensures var t := RunAlone(p, w, id, ResetStart(userId, token, hash), ALWAYS_FINE, 0);
      if t.call == Done(PasswordReset) then
        && OthersSame(w.users, t.world.users, userId)
        && (exists i :: 0 <= i < |w.users| && w.users[i].id == userId
              && t.world.users[i] == w.users[i].(password := hash))
        && EntriesKept(w.store, t.world.store, Some("reset-password:" + userId))
        && "reset-password:" + userId !in t.world.store
      else t.world.users == w.users && t.world.store == w.store
  {
    hide RunAlone;
    ResetAdmits(p, w, id, userId, token, hash);
    if RunAlone(p, w, id, ResetStart(userId, token, hash), ALWAYS_FINE, 0).call == Done(PasswordReset) {
      var i := FoundAt(w.users, userId, FindById(w.users, userId).value);
    }
  }

  /** A whole confirmation: not found without an account of that email; else that account becomes confirmed and
    * active, and nothing else of any account changes. */
  lemma ConfirmWritesOne(p: Platform, w: World, id: nat, email: string)
    requires UniqueRows(w.users)
    ensures var t := RunAlone(p, w, id, ConfirmStart(email), ALWAYS_FINE, 0);
      && t.world.store == w.store && t.world.roles == w.roles
      && if forall u :: u in w.users ==> u.email != email then
           t.call == Done(Failed(NotFound)) && t.world.users == w.users
         else
           && t.call == Done(AccountConfirmed)
           && exists i :: 0 <= i < |w.users| && w.users[i].email == email
                && OthersSame(w.users, t.world.users, w.users[i].id)
                && t.world.users[i] == w.users[i].(verified := true, status := Active)
  {
    hide RunAlone;
    StepAlone(p, w, id, ConfirmStart(email), ALWAYS_FINE, 0);
    var found := FindByEmail(w.users, email);
    match found
    case None =>
      DoneAlone(p, w, id, Done(Failed(NotFound)), ALWAYS_FINE, 1);
    case Some(user) =>
      StepAlone(p, w, id, ConfirmFound(user), ALWAYS_FINE, 1);
      var t := ConfirmTurn(w, ConfirmFound(user));
      DoneAlone(p, t.world, id, t.call, ALWAYS_FINE, 2);
      var i := FoundAt(w.users, user.id, user);
  }

  /** Which error a whole sign-in answers, by the account of the lower-cased email. */
  lemma SignInRefuses(p: Platform, w: World, id: nat, email: string, password: string)
    requires UniqueRows(w.users)
    ensures var o := RunAlone(p, w, id, SignInStart(email, password), ALWAYS_FINE, 0).call;
      && o.Done?
      && (!p.isEmail(p.lower(email)) ==> o.outcome == Failed(BadRequest))
      && (p.isEmail(p.lower(email)) && (forall u :: u in w.users ==> u.email != p.lower(email)) ==>
            o.outcome == Failed(Unauthorized))
      && forall u :: p.isEmail(p.lower(email)) && u in w.users && u.email == p.lower(email) ==>
           var admin := u.role in w.roles && (w.roles[u.role].name == "ADMIN" || w.roles[u.role].name == "SUPER_ADMIN");
           && (admin ==> o.outcome == Failed(Unauthorized))
           && (!admin && !u.verified ==> o.outcome == Failed(Forbidden))
           && (!admin && u.verified && !p.matches(password, u.password) ==> o.outcome == Failed(Unauthorized))
           && (!admin && u.verified && p.matches(password, u.password) ==> o.outcome.TokensIssued?)
  {
    hide RunAlone, Sign, BothStored;
    SignInAlone(p, w, id, email, password);
    forall u | u in w.users && u.email == p.lower(email) ensures FindByEmail(w.users, p.lower(email)) == Some(u) {
      var i := FoundAt(w.users, u.id, u);
      var found := FindByEmail(w.users, p.lower(email)).value;
      var j := FoundAt(w.users, found.id, found);
    }
  }

  /** The role an account has now, if it is one of the stored ones. */
  function RoleNow(w: World, u: User): Option<Role> {
    if u.role in w.roles then Some(w.roles[u.role]) else None
  }

  /** Both tokens of a whole sign-in carry the lower-cased email and the role of the account as it is stored,
    * for ten hours and for seven days; their entries live for a day and for seven days; nothing else changes. */
  lemma SignInGrants(p: Platform, w: World, id: nat, email: string, password: string)
    requires Sound(p)
    ensures var t := RunAlone(p, w, id, SignInStart(email, password), ALWAYS_FINE, 0);
      t.call.Done? && t.call.outcome.TokensIssued? ==>
        var o, now := t.call.outcome, w.now / 1000;
        && (exists u :: u in w.users && u.email == p.lower(email) && u.id == o.user
              && p.decode(o.access) == Some(Claims(p.lower(email), RoleNow(w, u), now, now + 36000))
              && p.decode(o.refresh) == Some(Claims(p.lower(email), RoleNow(w, u), now, now + 604800)))
        && t.world.users == w.users
        && t.world.store == w.store
             ["session:" + o.user + ":" + o.access := Entry("active", Some(w.now + 86400000))]
             ["refresh:" + o.user + ":" + o.refresh := Entry("active", Some(w.now + 604800000))]
  {
    hide RunAlone;
    SignInAlone(p, w, id, email, password);
  }

  /** The access token of a whole granted refresh carries the email and the role of the account as it is stored
    * now, for fifteen minutes; its session entry lives for a day; nothing else changes. */
  lemma RefreshGrants(p: Platform, w: World, id: nat, token: string)
    requires Sound(p)
    ensures var t := RunAlone(p, w, id, RefreshStart(token), ALWAYS_FINE, 0);
      t.call.Done? && t.call.outcome.AccessIssued? ==>
        var o, now := t.call.outcome, w.now / 1000;
        && p.decode(token).Some? && t.world.users == w.users
        && exists u :: u in w.users && u.email == p.decode(token).value.email
             && p.decode(o.access) == Some(Claims(u.email, RoleNow(w, u), now, now + 900))
             && t.world.store ==
                  w.store["session:" + u.id + ":" + o.access := Entry("active", Some(w.now + 86400000))]
  {
    RefreshTurns(p, w, id, token);
    hide RunAlone, CacheSession;
    if RefreshAccepts(p, w, token) {
      var u := FindByEmail(w.users, p.decode(token).value.email).value;
      var w' := Note(w, Refreshed(id, u.id, token, w.now));
      var access := Sign(p, w.now, u.email, RoleNow(w, u), 900);
      CachedWithLifetime(w', u.id, access);
      assert u in w.users;
    }
  }

  /** A whole logout deletes one entry, that of the account its token leads to, when there is one. */
  lemma LogoutDeletes(p: Platform, w: World, id: nat, token: string)
    requires UniqueRows(w.users)
    ensures var t := RunAlone(p, w, id, LogoutStart(token), ALWAYS_FINE, 0);
      var known := p.decode(token).Some? && w.now / 1000 < p.decode(token).value.exp
        && p.isEmail(p.decode(token).value.email);
      && t.call == Done(LoggedOut) && t.world.users == w.users
      && (forall u :: known && u in w.users && u.email == p.decode(token).value.email ==>
            && EntriesKept(w.store, t.world.store, Some("refresh:" + u.id + ":" + token))
            && "refresh:" + u.id + ":" + token !in t.world.store)
      && (!known || (forall u :: u in w.users ==> u.email != p.decode(token).value.email) ==> t.world == w)
  {
    hide RunAlone;
    LogoutAlone(p, w, id, token);
    forall u, email | u in w.users && u.email == email ensures FindByEmail(w.users, email) == Some(u) {
      var i := FoundAt(w.users, u.id, u);
      var found := FindByEmail(w.users, email).value;
      var j := FoundAt(w.users, found.id, found);
    }
  }
}

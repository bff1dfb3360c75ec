/** The services themselves: objects that update their fields, each method tied to the machine's call. */
module AuthServices {
  import opened Wrappers
  import opened CacheKeys
  import opened Accounts
  import opened Tokens
  import R = Redis
  import opened AuthMachine
  import opened AuthSequential
  import L = UserListing
  import P = Pagination
  import W = PageWalk

  // ----- CacheService -----

  class CacheService {
    var store: R.Store
    var now: nat

    constructor (now: nat)
      ensures store == map[] && this.now == now
    {
      store, this.now := map[], now;
    }

    /** Without error the value and its lifetime; a value without lifetime when only the SET took effect. */
    method Set(key: string, value: string, ttlSeconds: Option<nat>, setFault: R.Fault, expireFault: R.Fault)
      modifies this`store
      ensures setFault == R.LostBefore ==> store == old(store)
      ensures setFault != R.LostBefore ==>
        var timed := setFault == R.Fine && ttlSeconds.Some? && ttlSeconds.value != 0 && expireFault != R.LostBefore;
        store == old(store)[key := R.Entry(value, if timed then Some(now + 1000 * ttlSeconds.value) else None)]
    {
      if setFault != R.LostBefore {
        store := R.Set(store, key, value);
      }
      if setFault != R.Fine {
        return;  // the exception is logged and swallowed
      }
      if ttlSeconds.Some? && ttlSeconds.value != 0 {
        if expireFault != R.LostBefore {
          store := R.Expire(store, key, ttlSeconds.value, now);
        }
      }
    }

    method Get(key: string, fault: R.Fault) returns (value: Option<string>)
      ensures value.Some? <==> fault == R.Fine && R.Live(store, key, now)
      ensures value.Some? ==> value.value == store[key].value
    {
      if fault != R.Fine {
        return None;
      }
      value := R.Get(store, key, now);
    }

    method Delete(key: string, fault: R.Fault)
      modifies this`store
      ensures store == if fault == R.LostBefore then old(store) else old(store) - {key}
    {
      if fault != R.LostBefore {
        store := R.Del(store, key);
      }
    }

    method Wait(ms: nat)
      modifies this`now
      ensures now == old(now) + ms
    {
      now := now + ms;
    }
  }

  // ----- UserRepository -----

  datatype Lookup = Found(user: User) | Missing | NotAnEmail

  class UserRepository {
    var rows: seq<User>

    constructor ()
      ensures rows == []
    {
      rows := [];
    }

    /** Registers under the lower-cased email, unless the store's unique columns refuse. */
    method RegisterAccount(
        p: Platform, email: string, roleName: string, hash: string, status: Status, newId: string)
      returns (user: Option<User>)
      modifies this
      ensures user.Some? <==>
        FindByEmail(old(rows), p.lower(email)).None? && FindById(old(rows), newId).None?
      ensures user.Some? ==> user.value == User(newId, p.lower(email), hash, roleName, status, false)
      ensures rows == if user.Some? then old(rows) + [user.value] else old(rows)
    {
      var created := User(newId, p.lower(email), hash, roleName, status, false);
      if FindByEmail(rows, created.email).Some? || FindById(rows, newId).Some? {
        return None;
      }
      rows := rows + [created];
      user := Some(created);
    }

    method Save(user: User)
      modifies this
      ensures rows == SaveRow(old(rows), user)
      ensures |rows| == |old(rows)| && forall i :: 0 <= i < |rows| ==>
        rows[i] == if old(rows)[i].id == user.id then user else old(rows)[i]
    {
      rows := SaveRow(rows, user);
    }

    method ConfirmAccount(email: string) returns (user: Option<User>)
      modifies this
      ensures user == FindByEmail(old(rows), email)
      ensures user.None? <==> forall u :: u in old(rows) ==> u.email != email
      ensures user.Some? ==>
        && user.value in old(rows) && user.value.email == email
        && |rows| == |old(rows)| && forall i :: 0 <= i < |rows| ==>
             rows[i] == if old(rows)[i].id != user.value.id then old(rows)[i]
                        else user.value.(verified := true, status := Active)
      ensures rows == if user.None? then old(rows)
        else SaveRow(old(rows), user.value.(verified := true, status := Active))
    {
      user := FindByEmail(rows, email);
      if user.None? {
        return;
      }
      Save(user.value.(verified := true, status := Active));
    }

    method GetUserByEmail(p: Platform, email: string) returns (r: Lookup)
      ensures r == if !p.isEmail(email) then NotAnEmail
        else match FindByEmail(rows, email) case None => Missing case Some(user) => Found(user)
      ensures r.Found? ==> p.isEmail(email) && r.user in rows && r.user.email == email
      ensures r.Missing? <==> p.isEmail(email) && forall u :: u in rows ==> u.email != email
    {
      if !p.isEmail(email) {
        return NotAnEmail;
      }
      var found := FindByEmail(rows, email);
      match found
      case None => r := Missing;
      case Some(user) => r := Found(user);
    }
  }

  // ----- AuthService -----

  class AuthService {
    const platform: Platform
    const repository: UserRepository
    const cache: CacheService
    var roles: map<string, Role>
    ghost var log: seq<Event>

    constructor (platform: Platform, repository: UserRepository, cache: CacheService, roles: map<string, Role>)
      ensures this.platform == platform && this.repository == repository && this.cache == cache
      ensures this.roles == roles && log == []
    {
      this.platform, this.repository, this.cache := platform, repository, cache;
      this.roles, log := roles, [];
    }

    ghost function World(): World
      reads this, repository, cache
    {
      AuthMachine.World(cache.now, repository.rows, roles, cache.store, log)
    }

    /** The state after a call is the machine's state after that call run alone. */
    twostate predicate Ran(id: nat, start: Call, fs: nat -> R.Fault, result: Outcome)
      reads this, repository, cache
    {
      RunAlone(platform, old(World()), id, start, fs, 0) == Turn(World(), Done(result))
    }

    method SignUp(
        ghost id: nat, email: string, roleName: string, hash: string, status: Status, newId: string)
      returns (result: Outcome)
      modifies this`log, repository
      ensures forall fs :: Ran(id, SignUpStart(email, roleName, hash, status, newId), fs, result)
    {
      hide RunAlone;
      SignUpTurns(platform, World(), id, SignUpStart(email, roleName, hash, status, newId));
      var userInDB := FindByEmail(repository.rows, email);
      if userInDB.Some? {
        return Failed(Conflict);
      }
      if roleName == "" || roleName !in roles {
        return Failed(BadRequest);
      }
      var user := repository.RegisterAccount(platform, email, roleName, hash, status, newId);
      match user
      case None => result := Failed(Conflict);
      case Some(created) =>
        log := log + [Registered(id, created.id, created.email)];
        result := SignedUp(created.email);
    }

    method ConfirmAccount(ghost id: nat, email: string) returns (result: Outcome)
      modifies this`log, repository
      ensures forall fs :: Ran(id, ConfirmStart(email), fs, result)
    {
      var user := repository.ConfirmAccount(email);
      match user
      case None => result := Failed(NotFound);
      case Some(confirmed) =>
        log := log + [Confirmed(confirmed.id, confirmed.email)];
        result := AccountConfirmed;
    }

    method SignIn(ghost id: nat, email: string, password: string, fs: nat -> R.Fault) returns (result: Outcome)
      modifies this`log, cache`store
      ensures Ran(id, SignInStart(email, password), fs, result)
    {
      StepAlone(platform, World(), id, SignInStart(email, password), fs, 0);
      hide RunAlone;
      var normalizedEmail := platform.lower(email);
      ghost var checked := SignInCheck(platform, World(), normalizedEmail, password);
      if checked.Done? {
        DoneAlone(platform, World(), id, checked, fs, 1);
      }
      var found := repository.GetUserByEmail(platform, normalizedEmail);
      if found.NotAnEmail? {
        return Failed(BadRequest);
      }
      if found.Missing? {
        return Failed(Unauthorized);
      }
      var user := found.user;
      var role := if user.role in roles then Some(roles[user.role]) else None;
      if role.Some? && (role.value.name == "ADMIN" || role.value.name == "SUPER_ADMIN") {
        return Failed(Unauthorized);
      }
      if !user.verified {
        return Failed(Forbidden);
      }
      var isPasswordValid := platform.matches(password, user.password);
      if !isPasswordValid {
        return Failed(Unauthorized);
      }
      result := IssueTokens(id, user, role, normalizedEmail, fs);
    }

    /** The rest of signIn: both tokens are signed, then both cache entries stored. */
    method IssueTokens(ghost id: nat, user: User, role: Option<Role>, email: string, fs: nat -> R.Fault)
      returns (result: Outcome)
      modifies this`log, cache`store
      ensures RunAlone(platform, old(World()), id, SignInChecked(user, role, email), fs, 1)
           == Turn(World(), Done(result))
    {
      hide RunAlone, CacheSession, CacheRefresh;
      SignInSigns(platform, World(), id, SignInChecked(user, role, email), fs);
      var accessToken := Sign(platform, cache.now, email, role, TEN_HOURS);
      var refreshToken := Sign(platform, cache.now, email, role, WEEK);
      log := log + [Issued(user.id, refreshToken)];
      SignInStores(platform, World(), id, SignInSigned(user, accessToken, refreshToken), fs);
      StoreSession(user.id, accessToken, fs(3), fs(4));
      var k := if fs(3) == R.Fine then 5 else 4;
      StoreRefresh(user.id, refreshToken, fs(k), fs(k + 1));
      log := log + [SignedIn(user.id, user.email, refreshToken)];
      result := TokensIssued(user.id, accessToken, refreshToken);
    }

    method StoreSession(user: string, token: string, f: R.Fault, g: R.Fault)
      modifies this`log, cache`store
      ensures World() == CacheSession(old(World()), user, token, f, g)
    {
      cache.Set(SessionKey(user, token), "active", Some(DAY), f, g);
      if f != R.LostBefore {
        log := log + [SessionStored(user, token)];
      }
    }

    method StoreRefresh(user: string, token: string, f: R.Fault, g: R.Fault)
      modifies this`log, cache`store
      ensures World() == CacheRefresh(old(World()), user, token, f, g)
    {
      cache.Set(RefreshKey(user, token), "active", Some(WEEK), f, g);
      if f != R.LostBefore {
        log := log + [Stored(user, token)];
      }
    }

    method RefreshAccessToken(ghost id: nat, token: string, fs: nat -> R.Fault) returns (result: Outcome)
      modifies this`log, cache`store
      ensures Ran(id, RefreshStart(token), fs, result)
    {
      ghost var w0 := World();
      var payload := Verify(platform, cache.now, token);
      if payload.None? {
        return Failed(Unauthorized);
      }
      ghost var c1 := RefreshVerified(token, payload.value, cache.now);
      assert RunAlone(platform, w0, id, RefreshStart(token), fs, 0) == RunAlone(platform, w0, id, c1, fs, 1);
      var found := repository.GetUserByEmail(platform, payload.value.email);
      if found.NotAnEmail? {
        return Failed(BadRequest);
      }
      if found.Missing? {
        return Failed(Unauthorized);
      }
      var user := found.user;
      var role := if user.role in roles then Some(roles[user.role]) else None;
      ghost var c2 := RefreshFound(token, user, role, cache.now);
      assert RunAlone(platform, w0, id, c1, fs, 1) == RunAlone(platform, w0, id, c2, fs, 2);
      var isValid := cache.Get(RefreshKey(user.id, token), fs(2));
      if isValid != Some("active") {
        return Failed(Unauthorized);
      }
      log := log + [Refreshed(id, user.id, token, cache.now)];
      ghost var c3 := RefreshAllowed(token, user, role);
      assert RunAlone(platform, w0, id, c2, fs, 2) == RunAlone(platform, World(), id, c3, fs, 3);
      RefreshStores(platform, World(), id, c3, fs);
      var newAccessToken := Sign(platform, cache.now, user.email, role, QUARTER_HOUR);
      StoreSession(user.id, newAccessToken, fs(4), fs(5));
      result := AccessIssued(token, newAccessToken);
    }

    method Logout(ghost id: nat, token: string, fs: nat -> R.Fault) returns (result: Outcome)
      modifies this`log, cache`store
      ensures Ran(id, LogoutStart(token), fs, result)
    {
      ghost var w0 := World();
      result := LoggedOut;
      var payload := Verify(platform, cache.now, token);
      if payload.None? {
        return;
      }
      ghost var c1 := LogoutVerified(token, payload.value);
      assert RunAlone(platform, w0, id, LogoutStart(token), fs, 0) == RunAlone(platform, w0, id, c1, fs, 1);
      var found := repository.GetUserByEmail(platform, payload.value.email);
      if found.Found? {
        ghost var c2 := LogoutFound(token, found.user);
        assert RunAlone(platform, w0, id, c1, fs, 1) == RunAlone(platform, w0, id, c2, fs, 2);
        cache.Delete(RefreshKey(found.user.id, token), fs(2));
        if fs(2) != R.LostBefore {
          log := log + [Revoked(found.user.id, token)];
        }
      }
    }

    method ResetPassword(ghost id: nat, userId: string, token: string, hash: string, fs: nat -> R.Fault)
      returns (result: Outcome)
      modifies this`log, repository, cache`store
      ensures Ran(id, ResetStart(userId, token, hash), fs, result)
    {
      ghost var w0, c0 := World(), ResetStart(userId, token, hash);
      StepAlone(platform, w0, id, c0, fs, 0);
      ghost var t1 := ResetTurn(w0, id, c0, fs(0));
      if t1.call.Done? {
        DoneAlone(platform, w0, id, t1.call, fs, 1);
      }
      hide RunAlone;
      var storedToken := cache.Get(ResetKey(userId), fs(0));
      if storedToken.None? || storedToken.value == "" || storedToken.value != token {
        return Failed(BadRequest);
      }
      log := t1.world.log;
      result := ChangePassword(id, userId, hash, t1.call.source, fs);
    }

    /** The rest of resetPassword: the account is loaded and saved, then the token deleted. */
    method ChangePassword(
        ghost id: nat, userId: string, hash: string, ghost source: nat, fs: nat -> R.Fault)
      returns (result: Outcome)
      modifies this`log, repository, cache`store
      ensures RunAlone(platform, old(World()), id, ResetAllowed(userId, hash, source), fs, 1)
           == Turn(World(), Done(result))
    {
      hide RunAlone;
      ResetTail(platform, World(), id, ResetAllowed(userId, hash, source), fs);
      var found := FindById(repository.rows, userId);
      if found.None? {
        return Failed(NotFound);
      }
      var user := found.value;
      repository.Save(user.(password := hash));
      log := log + [PasswordChanged(id, user.id, source)];
      cache.Delete(ResetKey(userId), fs(3));
      if fs(3) != R.LostBefore {
        log := log + [ResetDeleted(userId)];
      }
      result := PasswordReset;
    }

    /** answer: the matching rows in the order the store gives them. Every failure is one server error. */
    method GetAllUsers(page: int, perPage: int, search: string, like: (string, string) -> bool,
                       rank: string -> int, url: string, answer: seq<User>) returns (r: L.Listing)
      requires W.Reorders(L.ByEmail(rank), L.Matching(repository.rows, search, like), answer)
      ensures r.ServerError? <==> page < 1 || perPage < 1
      ensures L.Lists(repository.rows, search, like, rank, answer)
      ensures r.Listed? ==>
        && P.Describes(r.answer, url, page, perPage, |answer|)
        && var rows := W.Window(answer, page, perPage);
        && |r.answer.data| == |rows|
        && forall i :: 0 <= i < |rows| ==>
             r.answer.data[i] == L.Profile(rows[i].id, rows[i].email, rows[i].role, rows[i].status, rows[i].verified)
    {
      L.AnswerIs(repository.rows, search, like, rank, answer);
      hide L.Lists;
      if page < 1 || perPage < 1 {
        return L.ServerError;
      }
      var skip := (page - 1) * perPage;
      var start := W.Min(skip, |answer|);
      var result := answer[start..W.Min(start + perPage, |answer|)];
      var shown: seq<L.Profile> := [];
      for i := 0 to |result|
        invariant |shown| == i && forall j :: 0 <= j < i ==> shown[j] == L.ProfileOf(result[j])
      {
        shown := shown + [L.ProfileOf(result[i])];
      }
      var answered := P.GeneratePagination(page, perPage, |answer|, url, shown);
      r := L.Listed(answered);
    }
  }
}

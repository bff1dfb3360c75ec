/** AuthService as a machine: every call is a sequence of turns, one for each awaited action,
  * and turns of different calls, clock ticks and swallowed cache errors interleave freely. */
module AuthMachine {
  import opened Wrappers
  import opened CacheKeys
  import opened Accounts
  import opened Tokens
  import opened Redis

  /** What happened, in order. Nothing in the service reads the log. */
  datatype Event =
    | Registered(call: nat, user: string, email: string)
    | Confirmed(user: string, email: string)
    | Issued(user: string, token: string)         // signIn signed a refresh token
    | SessionStored(user: string, token: string)  // SET of a session key took effect
    | Stored(user: string, token: string)         // SET of a refresh key took effect
    | Revoked(user: string, token: string)        // DEL of a refresh key took effect
    | SignedIn(user: string, email: string, token: string)
    | Refreshed(call: nat, user: string, token: string, verifiedAt: nat)
    | ResetStored(user: string, token: string)
    | ResetRead(call: nat, user: string, source: nat)  // source: where in the log the token was stored
    | PasswordChanged(call: nat, user: string, source: nat)
    | ResetDeleted(user: string)

  datatype World = World(
    now: nat, users: seq<User>, roles: map<string, Role>, store: Store, log: seq<Event>)

  datatype Error = BadRequest | Unauthorized | Forbidden | NotFound | Conflict

  datatype Outcome =
    | Failed(error: Error)
    | SignedUp(email: string)
    | AccountConfirmed
    | TokensIssued(user: string, access: string, refresh: string)
    | AccessIssued(token: string, access: string)
    | LoggedOut
    | PasswordReset

  /** A call and where it is: each constructor but Done names the await it has reached. */
  datatype Call =
    | SignUpStart(email: string, roleName: string, hash: string, status: Status, newId: string)
    | SignUpChecked(email: string, roleName: string, hash: string, status: Status, newId: string)
    | SignUpRoled(email: string, roleName: string, hash: string, status: Status, newId: string)
    | ConfirmStart(email: string)
    | ConfirmFound(user: User)
    | SignInStart(email: string, password: string)
    | SignInChecked(user: User, role: Option<Role>, email: string)
    | SignInAccess(user: User, role: Option<Role>, email: string, access: string)
    | SignInSigned(user: User, access: string, refresh: string)
    | SignInSessionSet(user: User, access: string, refresh: string)
    | SignInSession(user: User, access: string, refresh: string)
    | SignInRefreshSet(user: User, access: string, refresh: string)
    | RefreshStart(token: string)
    | RefreshVerified(token: string, claims: Claims, at: nat)
    | RefreshFound(token: string, user: User, role: Option<Role>, at: nat)
    | RefreshAllowed(token: string, user: User, role: Option<Role>)
    | RefreshSigned(token: string, user: User, access: string)
    | RefreshSessionSet(token: string, user: User, access: string)
    | LogoutStart(token: string)
    | LogoutVerified(token: string, claims: Claims)
    | LogoutFound(token: string, user: User)
    | ResetStart(userId: string, token: string, hash: string)
    | ResetAllowed(userId: string, hash: string, source: nat)
    | ResetFound(user: User, hash: string, source: nat)
    | ResetSaved(userId: string)
    | Done(outcome: Outcome)

  predicate Starts(c: Call) {
    || (c.SignUpStart? && NoColon(c.newId))
    || c.ConfirmStart? || c.SignInStart? || c.RefreshStart? || c.LogoutStart? || c.ResetStart?
  }

  predicate SigningIn(c: Call) {
    || c.SignInStart? || c.SignInChecked? || c.SignInAccess? || c.SignInSigned?
    || c.SignInSessionSet? || c.SignInSession? || c.SignInRefreshSet?
  }

  predicate Refreshing(c: Call) {
    || c.RefreshStart? || c.RefreshVerified? || c.RefreshFound? || c.RefreshAllowed?
    || c.RefreshSigned? || c.RefreshSessionSet?
  }

  datatype Turn = Turn(world: World, call: Call)

  // ----- actions on the world -----

  function Note(w: World, e: Event): World {
    w.(log := w.log + [e])
  }

  predicate Effective(f: Fault) {
    f != LostBefore
  }

  function SetRefresh(w: World, user: string, token: string, f: Fault): World {
    if Effective(f) then
      Note(w.(store := Set(w.store, RefreshKey(user, token), "active")), Stored(user, token))
    else w
  }

  function SetSession(w: World, user: string, token: string, f: Fault): World {
    if Effective(f) then
      Note(w.(store := Set(w.store, SessionKey(user, token), "active")), SessionStored(user, token))
    else w
  }

  function DelRefresh(w: World, user: string, token: string, f: Fault): World {
    if Effective(f) then
      Note(w.(store := Del(w.store, RefreshKey(user, token))), Revoked(user, token))
    else w
  }

  function DelReset(w: World, user: string, f: Fault): World {
    if Effective(f) then Note(w.(store := Del(w.store, ResetKey(user))), ResetDeleted(user)) else w
  }

  function ExpireKey(w: World, key: string, seconds: nat, f: Fault): World {
    if Effective(f) then w.(store := Expire(w.store, key, seconds, w.now)) else w
  }

  function GetKey(w: World, key: string, f: Fault): Option<string> {
    if f == Fine then Get(w.store, key, w.now) else None
  }

  /** Some flow outside this repository stores password-reset tokens. */
  function PutReset(w: World, user: string, token: string, deadline: Option<nat>): World {
    Note(w.(store := w.store[ResetKey(user) := Entry(token, deadline)]), ResetStored(user, token))
  }

  function AddUser(w: World, call: nat, user: User): World {
    Note(w.(users := w.users + [user]), Registered(call, user.id, user.email))
  }

  function RoleOf(w: World, user: User): Option<Role> {
    if user.role in w.roles then Some(w.roles[user.role]) else None
  }

  /** The place in the log of the reset token now stored for the user, if there is one. */
  function Holding(log: seq<Event>, user: string): (k: Option<nat>)
    ensures k.Some? ==> k.value < |log| && log[k.value].ResetStored? && log[k.value].user == user
    ensures k.Some? ==> forall j :: k.value < j < |log| ==>
      log[j] != ResetDeleted(user) && !(log[j].ResetStored? && log[j].user == user)
  {
    if log == [] then None
    else
      var n := |log| - 1;
      if log[n].ResetStored? && log[n].user == user then Some(n)
      else if log[n] == ResetDeleted(user) then None
      else Holding(log[..n], user)
  }

  // ----- the turns of each call -----

  function SignUpTurn(p: Platform, w: World, id: nat, c: Call): Turn
    requires c.SignUpStart? || c.SignUpChecked? || c.SignUpRoled?
  {
    match c
    case SignUpStart(email, roleName, hash, status, newId) =>
      if FindByEmail(w.users, email).Some? then Turn(w, Done(Failed(Conflict)))
      else Turn(w, SignUpChecked(email, roleName, hash, status, newId))
    case SignUpChecked(email, roleName, hash, status, newId) =>
      if roleName == "" || roleName !in w.roles then Turn(w, Done(Failed(BadRequest)))
      else Turn(w, SignUpRoled(email, roleName, hash, status, newId))
    case SignUpRoled(email, roleName, hash, status, newId) =>
      // the unique constraints on email and on the primary key answer with error 23505
      if FindByEmail(w.users, p.lower(email)).Some? || FindById(w.users, newId).Some? then
        Turn(w, Done(Failed(Conflict)))
      else
        Turn(AddUser(w, id, User(newId, p.lower(email), hash, roleName, status, false)),
             Done(SignedUp(p.lower(email))))
  }

  function ConfirmTurn(w: World, c: Call): Turn
    requires c.ConfirmStart? || c.ConfirmFound?
  {
    match c
    case ConfirmStart(email) =>
      (match FindByEmail(w.users, email)
       case None => Turn(w, Done(Failed(NotFound)))
       case Some(user) => Turn(w, ConfirmFound(user)))
    case ConfirmFound(user) =>
      var confirmed := user.(verified := true, status := Active);
      Turn(Note(w.(users := SaveRow(w.users, confirmed)), Confirmed(user.id, user.email)),
           Done(AccountConfirmed))
  }

  /** The checks between loading the user and signing the tokens. */
  function SignInCheck(p: Platform, w: World, email: string, password: string): Call {
    if !p.isEmail(email) then Done(Failed(BadRequest))
    else match FindByEmail(w.users, email)
      case None => Done(Failed(Unauthorized))
      case Some(user) =>
        var role := RoleOf(w, user);
        if role.Some? && role.value.name in {"ADMIN", "SUPER_ADMIN"} then Done(Failed(Unauthorized))
        else if !user.verified then Done(Failed(Forbidden))
        else if !p.matches(password, user.password) then Done(Failed(Unauthorized))
        else SignInChecked(user, role, email)
  }

  function FinishSignIn(w: World, user: User, access: string, refresh: string): Turn {
    Turn(Note(w, SignedIn(user.id, user.email, refresh)), Done(TokensIssued(user.id, access, refresh)))
  }

  function SignInTurn(p: Platform, w: World, c: Call, f: Fault): Turn
    requires SigningIn(c)
  {
    match c
    case SignInStart(email, password) => Turn(w, SignInCheck(p, w, p.lower(email), password))
    case SignInChecked(user, role, email) =>
      Turn(w, SignInAccess(user, role, email, Sign(p, w.now, email, role, TEN_HOURS)))
    case SignInAccess(user, role, email, access) =>
      var refresh := Sign(p, w.now, email, role, WEEK);
      Turn(Note(w, Issued(user.id, refresh)), SignInSigned(user, access, refresh))
    case SignInSigned(user, access, refresh) =>
      Turn(SetSession(w, user.id, access, f),
           if f == Fine then SignInSessionSet(user, access, refresh)
           else SignInSession(user, access, refresh))
    case SignInSessionSet(user, access, refresh) =>
      Turn(ExpireKey(w, SessionKey(user.id, access), DAY, f), SignInSession(user, access, refresh))
    case SignInSession(user, access, refresh) =>
      var w' := SetRefresh(w, user.id, refresh, f);
      if f == Fine then Turn(w', SignInRefreshSet(user, access, refresh))
      else FinishSignIn(w', user, access, refresh)
    case SignInRefreshSet(user, access, refresh) =>
      FinishSignIn(ExpireKey(w, RefreshKey(user.id, refresh), WEEK, f), user, access, refresh)
  }

  function RefreshTurn(p: Platform, w: World, id: nat, c: Call, f: Fault): Turn
    requires Refreshing(c)
  {
    match c
    case RefreshStart(token) =>
      (match Verify(p, w.now, token)
       case None => Turn(w, Done(Failed(Unauthorized)))
       case Some(claims) => Turn(w, RefreshVerified(token, claims, w.now)))
    case RefreshVerified(token, claims, at) =>
      if !p.isEmail(claims.email) then Turn(w, Done(Failed(BadRequest)))
      else (match FindByEmail(w.users, claims.email)
            case None => Turn(w, Done(Failed(Unauthorized)))
            case Some(user) => Turn(w, RefreshFound(token, user, RoleOf(w, user), at)))
    case RefreshFound(token, user, role, at) =>
      if GetKey(w, RefreshKey(user.id, token), f) == Some("active") then
        Turn(Note(w, Refreshed(id, user.id, token, at)), RefreshAllowed(token, user, role))
      else Turn(w, Done(Failed(Unauthorized)))
    case RefreshAllowed(token, user, role) =>
      Turn(w, RefreshSigned(token, user, Sign(p, w.now, user.email, role, QUARTER_HOUR)))
    case RefreshSigned(token, user, access) =>
      Turn(SetSession(w, user.id, access, f),
           if f == Fine then RefreshSessionSet(token, user, access)
           else Done(AccessIssued(token, access)))
    case RefreshSessionSet(token, user, access) =>
      Turn(ExpireKey(w, SessionKey(user.id, access), DAY, f), Done(AccessIssued(token, access)))
  }

  function LogoutTurn(p: Platform, w: World, c: Call, f: Fault): Turn
    requires c.LogoutStart? || c.LogoutVerified? || c.LogoutFound?
  {
    match c
    case LogoutStart(token) =>
      (match Verify(p, w.now, token)
       case None => Turn(w, Done(LoggedOut))
       case Some(claims) => Turn(w, LogoutVerified(token, claims)))
    case LogoutVerified(token, claims) =>
      if !p.isEmail(claims.email) then Turn(w, Done(LoggedOut))
      else (match FindByEmail(w.users, claims.email)
            case None => Turn(w, Done(LoggedOut))
            case Some(user) => Turn(w, LogoutFound(token, user)))
    case LogoutFound(token, user) =>
      Turn(DelRefresh(w, user.id, token, f), Done(LoggedOut))
  }

  function ResetTurn(w: World, id: nat, c: Call, f: Fault): Turn
    requires c.ResetStart? || c.ResetAllowed? || c.ResetFound? || c.ResetSaved?
  {
    match c
    case ResetStart(userId, token, hash) =>
      var stored := GetKey(w, ResetKey(userId), f);
      if stored.None? || stored.value == "" || stored.value != token then
        Turn(w, Done(Failed(BadRequest)))
      else
        var source := match Holding(w.log, userId) case Some(k) => k case None => 0;
        Turn(Note(w, ResetRead(id, userId, source)), ResetAllowed(userId, hash, source))
    case ResetAllowed(userId, hash, source) =>
      (match FindById(w.users, userId)
       case None => Turn(w, Done(Failed(NotFound)))
       case Some(user) => Turn(w, ResetFound(user, hash, source)))
    case ResetFound(user, hash, source) =>
      Turn(Note(w.(users := SaveRow(w.users, user.(password := hash))),
                PasswordChanged(id, user.id, source)),
           ResetSaved(user.id))
    case ResetSaved(userId) => Turn(DelReset(w, userId, f), Done(PasswordReset))
  }

  function Advance(p: Platform, w: World, id: nat, c: Call, f: Fault): Turn {
    if c.SignUpStart? || c.SignUpChecked? || c.SignUpRoled? then SignUpTurn(p, w, id, c)
    else if c.ConfirmStart? || c.ConfirmFound? then ConfirmTurn(w, c)
    else if Refreshing(c) then RefreshTurn(p, w, id, c, f)
    else if c.LogoutStart? || c.LogoutVerified? || c.LogoutFound? then LogoutTurn(p, w, c, f)
    else if c.ResetStart? || c.ResetAllowed? || c.ResetFound? || c.ResetSaved? then ResetTurn(w, id, c, f)
    else if c.Done? then Turn(w, c)
    else SignInTurn(p, w, c, f)
  }

  // ----- runs -----

  datatype Sys = Sys(world: World, calls: map<nat, Call>)

  datatype Step =
    | Tick(ms: nat)
    | Begin(id: nat, call: Call)
    | Resume(id: nat, fault: Fault)
    | StoreReset(user: string, token: string, ttl: Option<nat>)
    | SaveRole(role: Role)

  function Apply(p: Platform, s: Sys, step: Step): Sys {
    match step
    case Tick(ms) => s.(world := s.world.(now := s.world.now + ms))
    case Begin(id, call) =>
      if id in s.calls || !Starts(call) then s else s.(calls := s.calls[id := call])
    case Resume(id, fault) =>
      if id !in s.calls then s
      else
        var t := Advance(p, s.world, id, s.calls[id], fault);
        Sys(t.world, s.calls[id := t.call])
    case StoreReset(user, token, ttl) =>
      var deadline := match ttl case None => None case Some(n) => Some(s.world.now + 1000 * n);
      s.(world := PutReset(s.world, user, token, deadline))
    case SaveRole(role) =>
      s.(world := s.world.(roles := s.world.roles[role.name := role]))
  }

  /** No accounts, nothing cached, nothing logged. */
  function Fresh(now: nat, roles: map<string, Role>): World {
    World(now, [], roles, map[], [])
  }

  function Run(p: Platform, s: Sys, steps: seq<Step>): Sys {
    if steps == [] then s
    else Apply(p, Run(p, s, steps[..|steps| - 1]), steps[|steps| - 1])
  }

  function Exec(p: Platform, start: World, steps: seq<Step>): Sys {
    Run(p, Sys(start, map[]), steps)
  }

  /** Redis lost no command and no reply. */
  predicate ErrorFree(steps: seq<Step>) {
    forall i :: 0 <= i < |steps| && steps[i].Resume? ==> steps[i].fault == Fine
  }
}

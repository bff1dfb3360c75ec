/** What every turn of every call keeps, under every interleaving and every pattern of cache errors. */
module AuthInvariants {
  import opened Wrappers
  import opened CacheKeys
  import opened Accounts
  import opened Tokens
  import opened Redis
  import opened AuthMachine

  /** Read off the log: the latest SET or DEL of the refresh key that took effect was a SET. */
  ghost predicate Held(log: seq<Event>, user: string, token: string) {
    if log == [] then false
    else
      var e := log[|log| - 1];
      if e == Stored(user, token) then true
      else if e == Revoked(user, token) then false
      else Held(log[..|log| - 1], user, token)
  }

  /** Read off the log: the account was registered and, later, confirmed. */
  ghost predicate ConfirmedAccount(log: seq<Event>, user: string, email: string) {
    exists i, j :: 0 <= i < j < |log|
      && log[i].Registered? && log[i].user == user && log[i].email == email
      && log[j] == Confirmed(user, email)
  }

  ghost predicate RegisteredAccount(log: seq<Event>, user: string, email: string) {
    exists i :: 0 <= i < |log| && log[i].Registered? && log[i].user == user && log[i].email == email
  }

  /** The entry stays at least as long as `verify` accepts the token. */
  ghost predicate Outlasts(p: Platform, e: Entry, token: string) {
    && e.value == "active"
    && p.decode(token).Some?
    && (e.deadline.Some? ==> p.decode(token).value.exp * 1000 <= e.deadline.value)
  }

  // ----- the world -----

  ghost predicate UsersOk(p: Platform, w: World) {
    && UniqueRows(w.users)
    && forall i :: 0 <= i < |w.users| ==>
      p.lower(w.users[i].email) == w.users[i].email && NoColon(w.users[i].id)
  }

  ghost predicate AccountsOk(w: World) {
    && (forall i :: 0 <= i < |w.users| ==>
          w.users[i].verified ==> ConfirmedAccount(w.log, w.users[i].id, w.users[i].email))
    && (forall i :: 0 <= i < |w.users| ==>
          RegisteredAccount(w.log, w.users[i].id, w.users[i].email))
    && (forall k :: 0 <= k < |w.log| && w.log[k].Registered? ==>
          Owns(w.users, w.log[k].user, w.log[k].email))
  }

  /** A refresh token as signIn makes it, for a known account. */
  ghost predicate IssuedFact(p: Platform, w: World, user: string, token: string) {
    && NoColon(user)
    && p.decode(token).Some?
    && var c := p.decode(token).value;
      Owns(w.users, user, c.email) && p.isEmail(c.email)
      && c.exp == c.iat + WEEK && c.iat * 1000 <= w.now
  }

  ghost predicate IssuedOk(p: Platform, w: World) {
    forall u, t :: Issued(u, t) in w.log ==> IssuedFact(p, w, u, t)
  }

  ghost predicate RefreshOk(p: Platform, w: World) {
    forall u, t {:trigger RefreshKey(u, t)} {:trigger Held(w.log, u, t)} :: NoColon(u) ==>
      && (RefreshKey(u, t) in w.store <==> Held(w.log, u, t))
      && (RefreshKey(u, t) in w.store ==>
            Issued(u, t) in w.log && Outlasts(p, w.store[RefreshKey(u, t)], t))
  }

  ghost predicate SessionsOk(p: Platform, w: World) {
    forall u, t :: SessionStored(u, t) in w.log ==>
      NoColon(u) && SessionKey(u, t) in w.store && Outlasts(p, w.store[SessionKey(u, t)], t)
  }

  ghost predicate ResetOk(w: World) {
    forall u {:trigger ResetKey(u)} {:trigger Holding(w.log, u)} ::
      && (ResetKey(u) in w.store <==> Holding(w.log, u).Some?)
      && (Holding(w.log, u).Some? ==>
            w.log[Holding(w.log, u).value].token == w.store[ResetKey(u)].value)
  }

  // ----- the log -----

  ghost predicate Changed(log: seq<Event>, call: nat) {
    exists i :: 0 <= i < |log| && log[i].PasswordChanged? && log[i].call == call
  }

  /** Each event is justified by what the log held before it. */
  ghost predicate EventOk(p: Platform, log: seq<Event>, j: nat)
    requires j < |log|
  {
    var past := log[..j];
    match log[j]
    case Registered(call, u, email) =>
      forall i :: 0 <= i < j && log[i].Registered? ==> log[i].email != email && log[i].user != u
    case SignedIn(u, email, t) => ConfirmedAccount(past, u, email) && Issued(u, t) in past
    case Refreshed(call, u, t, at) =>
      Issued(u, t) in past && Held(past, u, t)
      && p.decode(t).Some? && Unexpired(p.decode(t).value, at)
    case ResetRead(call, u, source) => Holding(past, u) == Some(source)
    case PasswordChanged(call, u, source) =>
      ResetRead(call, u, source) in past && !Changed(past, call)
    case _ => true
  }

  ghost predicate LogOk(p: Platform, log: seq<Event>) {
    forall j :: 0 <= j < |log| ==> EventOk(p, log, j)
  }

  ghost predicate WorldOk(p: Platform, w: World) {
    && UsersOk(p, w) && AccountsOk(w) && IssuedOk(p, w) && RefreshOk(p, w)
    && SessionsOk(p, w) && ResetOk(w) && LogOk(p, w.log)
  }

  // ----- calls in flight -----

  /** What a call may rely on about a user it has loaded. */
  ghost predicate Loaded(w: World, user: User) {
    && NoColon(user.id)
    && Owns(w.users, user.id, user.email)
    && (user.verified ==> ConfirmedAccount(w.log, user.id, user.email))
  }

  /** An access token that expires within ten hours of being signed. */
  ghost predicate AccessFact(p: Platform, w: World, token: string) {
    && p.decode(token).Some?
    && var c := p.decode(token).value; c.exp <= c.iat + TEN_HOURS && c.iat * 1000 <= w.now
  }

  ghost predicate RefreshLogged(log: seq<Event>, id: nat, token: string) {
    exists u, at :: Refreshed(id, u, token, at) in log
  }

  ghost predicate SignInLogged(log: seq<Event>, user: string, refresh: string) {
    exists email :: SignedIn(user, email, refresh) in log
  }

  ghost predicate SignUpLogged(log: seq<Event>, id: nat, email: string) {
    exists u :: Registered(id, u, email) in log
  }

  ghost predicate CallOk(p: Platform, w: World, id: nat, c: Call) {
    match c
    case SignUpStart(_, _, _, _, newId) => NoColon(newId)
    case SignUpChecked(_, _, _, _, newId) => NoColon(newId)
    case SignUpRoled(_, _, _, _, newId) => NoColon(newId)
    case ConfirmFound(user) => Loaded(w, user)
    case SignInChecked(user, _, email) =>
      Loaded(w, user) && user.verified && email == user.email && p.isEmail(email)
    case SignInAccess(user, _, email, access) =>
      Loaded(w, user) && user.verified && email == user.email && p.isEmail(email)
      && AccessFact(p, w, access)
    case SignInSigned(user, access, refresh) =>
      Loaded(w, user) && user.verified && AccessFact(p, w, access) && Issued(user.id, refresh) in w.log
    case SignInSessionSet(user, access, refresh) =>
      Loaded(w, user) && user.verified && AccessFact(p, w, access) && Issued(user.id, refresh) in w.log
    case SignInSession(user, access, refresh) =>
      Loaded(w, user) && user.verified && Issued(user.id, refresh) in w.log
    case SignInRefreshSet(user, access, refresh) =>
      Loaded(w, user) && user.verified && Issued(user.id, refresh) in w.log
    case RefreshVerified(token, claims, at) =>
      at <= w.now && p.decode(token) == Some(claims) && Unexpired(claims, at)
    case RefreshFound(token, user, _, at) =>
      at <= w.now && Loaded(w, user) && p.isEmail(user.email) && p.decode(token).Some?
      && Unexpired(p.decode(token).value, at) && user.email == p.decode(token).value.email
    case RefreshAllowed(token, user, _) => Loaded(w, user) && RefreshLogged(w.log, id, token)
    case RefreshSigned(token, user, access) =>
      Loaded(w, user) && AccessFact(p, w, access) && RefreshLogged(w.log, id, token)
    case RefreshSessionSet(token, user, access) =>
      Loaded(w, user) && AccessFact(p, w, access) && RefreshLogged(w.log, id, token)
    case LogoutVerified(token, claims) => p.decode(token) == Some(claims)
    case LogoutFound(token, user) =>
      Loaded(w, user) && p.isEmail(user.email)
      && p.decode(token).Some? && user.email == p.decode(token).value.email
    case ResetStart(_, _, _) => !Changed(w.log, id)
    case ResetAllowed(userId, _, source) =>
      ResetRead(id, userId, source) in w.log && !Changed(w.log, id)
    case ResetFound(user, _, source) =>
      Loaded(w, user) && ResetRead(id, user.id, source) in w.log && !Changed(w.log, id)
    case Done(SignedUp(email)) => SignUpLogged(w.log, id, email)
    case Done(TokensIssued(user, _, refresh)) => SignInLogged(w.log, user, refresh)
    case Done(AccessIssued(token, _)) => RefreshLogged(w.log, id, token)
    case _ => true
  }

  /** What one turn of call `who` leaves standing for all the others. */
  ghost predicate Evolves(w: World, w': World, who: Option<nat>) {
    && w.now <= w'.now
    && Kept(w.users, w'.users)
    && w.log <= w'.log
    && forall k :: |w.log| <= k < |w'.log| ==> (w'.log[k].PasswordChanged? ==> who == Some(w'.log[k].call))
  }
}

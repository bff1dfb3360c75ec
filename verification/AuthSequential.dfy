/** One call at a time: sequential runs are runs of the machine, and the event history decides them. */
module AuthSequential {
  import opened Wrappers
  import opened CacheKeys
  import opened Accounts
  import opened Tokens
  import opened Redis
  import opened AuthMachine
  import opened AuthInvariants
  import opened AuthRuns

  /** No call takes more turns than this. */
  const LONGEST: nat := 7

  const ALWAYS_FINE: nat -> Fault := k => Fine

  /** A call run to its end with nothing in between; turn k meets fault fs(k). */
  function RunAlone(p: Platform, w: World, id: nat, c: Call, fs: nat -> Fault, k: nat): Turn
    requires k <= LONGEST
    decreases LONGEST - k
  {
    if c.Done? || k == LONGEST then Turn(w, c)
    else
      var t := Advance(p, w, id, c, fs(k));
      RunAlone(p, t.world, id, t.call, fs, k + 1)
  }

  /** How many turns a call still needs at most. */
  function TurnsLeft(c: Call): nat {
    match c
    case SignInStart(_, _) => 7
    case SignInChecked(_, _, _) => 6
    case RefreshStart(_) => 6
    case SignInAccess(_, _, _, _) => 5
    case RefreshVerified(_, _, _) => 5
    case SignInSigned(_, _, _) => 4
    case RefreshFound(_, _, _, _) => 4
    case ResetStart(_, _, _) => 4
    case SignInSessionSet(_, _, _) => 3
    case RefreshAllowed(_, _, _) => 3
    case ResetAllowed(_, _, _) => 3
    case SignUpStart(_, _, _, _, _) => 3
    case LogoutStart(_) => 3
    case SignInSession(_, _, _) => 2
    case RefreshSigned(_, _, _) => 2
    case ResetFound(_, _, _) => 2
    case SignUpChecked(_, _, _, _, _) => 2
    case LogoutVerified(_, _) => 2
    case ConfirmStart(_) => 2
    case Done(_) => 0
    case _ => 1
  }

  lemma SignInTurnsRunOut(p: Platform, w: World, c: Call, f: Fault)
    requires SigningIn(c)
    ensures TurnsLeft(SignInTurn(p, w, c, f).call) < TurnsLeft(c)
  {
  }

  lemma RefreshTurnsRunOut(p: Platform, w: World, id: nat, c: Call, f: Fault)
    requires Refreshing(c)
    ensures TurnsLeft(RefreshTurn(p, w, id, c, f).call) < TurnsLeft(c)
  {
  }

  lemma TurnsRunOut(p: Platform, w: World, id: nat, c: Call, f: Fault)
    requires !c.Done?
    ensures TurnsLeft(Advance(p, w, id, c, f).call) < TurnsLeft(c)
  {
    hide SignInTurn, RefreshTurn, Note, AddUser, DelRefresh, DelReset, GetKey, Holding;
    hide Verify, FindByEmail, FindById, SaveRow;
    if Refreshing(c) {
      RefreshTurnsRunOut(p, w, id, c, f);
    } else if SigningIn(c) {
      SignInTurnsRunOut(p, w, c, f);
    }
  }

  lemma {:induction false} RunCons(p: Platform, s: Sys, step: Step, rest: seq<Step>)
    ensures Run(p, s, [step] + rest) == Run(p, Apply(p, s, step), rest)
  {
    var all := [step] + rest;
    if rest == [] {
      assert all[..0] == [];
    } else {
      assert all[..|all| - 1] == [step] + rest[..|rest| - 1];
      RunCons(p, s, step, rest[..|rest| - 1]);
    }
  }

  /** Running alone ends the call, and is a run of the machine. */
  lemma {:induction false} AloneIsRun(
      p: Platform, s: Sys, id: nat, fs: nat -> Fault, k: nat) returns (steps: seq<Step>)
    requires id in s.calls && k <= LONGEST && TurnsLeft(s.calls[id]) <= LONGEST - k
    ensures var t := RunAlone(p, s.world, id, s.calls[id], fs, k);
      && t.call.Done?
      && Run(p, s, steps) == Sys(t.world, s.calls[id := t.call])
      && (forall i :: 0 <= i < |steps| ==> steps[i].Resume? && exists j :: steps[i].fault == fs(j))
    decreases LONGEST - k
  {
    var c := s.calls[id];
    if c.Done? {
      steps := [];
      assert s.calls == s.calls[id := c];
    } else {
      TurnsRunOut(p, s.world, id, c, fs(k));
      var step := Resume(id, fs(k));
      var s' := Apply(p, s, step);
      var rest := AloneIsRun(p, s', id, fs, k + 1);
      steps := [step] + rest;
      RunCons(p, s, step, rest);
      var t := RunAlone(p, s'.world, id, s'.calls[id], fs, k + 1);
      assert s'.calls[id := t.call] == s.calls[id := t.call];
    }
  }

  lemma {:induction false} RunAppend(p: Platform, s: Sys, first: seq<Step>, rest: seq<Step>)
    ensures Run(p, s, first + rest) == Run(p, Run(p, s, first), rest)
  {
    if rest == [] {
      assert first + rest == first;
    } else {
      var all := first + rest;
      assert all[..|all| - 1] == first + rest[..|rest| - 1];
      RunAppend(p, s, first, rest[..|rest| - 1]);
    }
  }

  // ----- the parts of a call alone -----

  /** Storing a session entry with its lifetime, as two turns of a call. */
  function CacheSession(w: World, u: string, t: string, f: Fault, g: Fault): World {
    var w' := SetSession(w, u, t, f);
    if f == Fine then ExpireKey(w', SessionKey(u, t), DAY, g) else w'
  }

  function CacheRefresh(w: World, u: string, t: string, f: Fault, g: Fault): World {
    var w' := SetRefresh(w, u, t, f);
    if f == Fine then ExpireKey(w', RefreshKey(u, t), WEEK, g) else w'
  }

  lemma StepAlone(p: Platform, w: World, id: nat, c: Call, fs: nat -> Fault, k: nat)
    requires k < LONGEST && !c.Done?
    ensures var t := Advance(p, w, id, c, fs(k));
      RunAlone(p, w, id, c, fs, k) == RunAlone(p, t.world, id, t.call, fs, k + 1)
  {
  }

  lemma DoneAlone(p: Platform, w: World, id: nat, c: Call, fs: nat -> Fault, k: nat)
    requires k <= LONGEST && c.Done?
    ensures RunAlone(p, w, id, c, fs, k) == Turn(w, c)
  {
  }

  lemma SignInStoresRefresh(p: Platform, w: World, id: nat, c: Call, fs: nat -> Fault, k: nat)
    requires c.SignInSession? && k + 2 <= LONGEST
    ensures RunAlone(p, w, id, c, fs, k) ==
      FinishSignIn(CacheRefresh(w, c.user.id, c.refresh, fs(k), fs(k + 1)), c.user, c.access, c.refresh)
  {
    var t := SignInTurn(p, w, c, fs(k));
    if fs(k) == Fine {
      assert RunAlone(p, t.world, id, t.call, fs, k + 1) == SignInTurn(p, t.world, t.call, fs(k + 1));
    }
  }

  /** A throwing SET of the session entry skips its EXPIRE, so the next command comes one turn earlier. */
  lemma SignInStores(p: Platform, w: World, id: nat, c: Call, fs: nat -> Fault)
    requires c.SignInSigned?
    ensures var k := if fs(3) == Fine then 5 else 4;
      RunAlone(p, w, id, c, fs, 3) ==
        FinishSignIn(
          CacheRefresh(CacheSession(w, c.user.id, c.access, fs(3), fs(4)), c.user.id, c.refresh, fs(k), fs(k + 1)),
          c.user, c.access, c.refresh)
  {
    hide RunAlone, SetSession, ExpireKey, CacheRefresh, FinishSignIn;
    var t4 := Advance(p, w, id, c, fs(3));
    StepAlone(p, w, id, c, fs, 3);
    if fs(3) == Fine {
      StepAlone(p, t4.world, id, t4.call, fs, 4);
      var t5 := Advance(p, t4.world, id, t4.call, fs(4));
      SignInStoresRefresh(p, t5.world, id, t5.call, fs, 5);
    } else {
      SignInStoresRefresh(p, t4.world, id, t4.call, fs, 4);
    }
  }

  /** A sign-up never reaches the cache. */
  lemma SignUpTurns(p: Platform, w: World, id: nat, c: Call)
    requires c.SignUpStart?
    ensures var checked := SignUpTurn(p, w, id, c);
      forall fs :: RunAlone(p, w, id, c, fs, 0) ==
        if checked.call.Done? then checked
        else
          var roled := SignUpTurn(p, w, id, checked.call);
          if roled.call.Done? then roled else SignUpTurn(p, w, id, roled.call)
  {
  }

  lemma SignInSigns(p: Platform, w: World, id: nat, c: Call, fs: nat -> Fault)
    requires c.SignInChecked?
    ensures var refresh := Sign(p, w.now, c.email, c.role, WEEK);
      RunAlone(p, w, id, c, fs, 1) ==
        RunAlone(p, Note(w, Issued(c.user.id, refresh)), id,
                 SignInSigned(c.user, Sign(p, w.now, c.email, c.role, TEN_HOURS), refresh), fs, 3)
  {
  }

  lemma RefreshStores(p: Platform, w: World, id: nat, c: Call, fs: nat -> Fault)
    requires c.RefreshAllowed?
    ensures var access := Sign(p, w.now, c.user.email, c.role, QUARTER_HOUR);
      RunAlone(p, w, id, c, fs, 3) ==
        Turn(CacheSession(w, c.user.id, access, fs(4), fs(5)), Done(AccessIssued(c.token, access)))
  {
  }

  // ----- what each call does alone, without errors -----

  /** A refresh alone answers with an access token exactly when: the token verifies, its email is one
    * and belongs to an account, and the account's cache entry for the token reads `active`. */
  predicate RefreshAccepts(p: Platform, w: World, token: string) {
    match Verify(p, w.now, token)
    case None => false
    case Some(claims) =>
      p.isEmail(claims.email)
      && match FindByEmail(w.users, claims.email)
         case None => false
         case Some(user) => Get(w.store, RefreshKey(user.id, token), w.now) == Some("active")
  }

  predicate Granted(t: Turn) {
    t.call.Done? && t.call.outcome.AccessIssued?
  }

  /** What a refresh that is not accepted answers. */
  function RefreshError(p: Platform, w: World, token: string): Outcome {
    match Verify(p, w.now, token)
    case Some(claims) => Failed(if p.isEmail(claims.email) then Unauthorized else BadRequest)
    case None => Failed(Unauthorized)
  }

  lemma RefreshAlone(p: Platform, w: World, id: nat, token: string)
    ensures var c := RunAlone(p, w, id, RefreshStart(token), ALWAYS_FINE, 0).call;
      c.Done? && (c.outcome.AccessIssued? <==> RefreshAccepts(p, w, token))
      && (if c.outcome.AccessIssued? then c.outcome.token == token else c.outcome == RefreshError(p, w, token))
      && (c.outcome == Failed(BadRequest) <==>
            p.decode(token).Some? && w.now / 1000 < p.decode(token).value.exp
            && !p.isEmail(p.decode(token).value.email))
  {
    hide SignUpTurn, ConfirmTurn, SignInTurn, LogoutTurn, ResetTurn, CacheSession;
    var t1 := Advance(p, w, id, RefreshStart(token), Fine);
    if !t1.call.Done? {
      var t2 := Advance(p, w, id, t1.call, Fine);
      assert t2 == RefreshTurn(p, w, id, t1.call, Fine);
      if !t2.call.Done? {
        var t3 := Advance(p, w, id, t2.call, Fine);
        if !t3.call.Done? {
          RefreshStores(p, t3.world, id, t3.call, ALWAYS_FINE);
        }
      }
    }
  }

  /** The world and answer of a refresh alone that is let through. */
  lemma RefreshTurns(p: Platform, w: World, id: nat, token: string)
    ensures var t := RunAlone(p, w, id, RefreshStart(token), ALWAYS_FINE, 0);
      && t.call.Done? && (t.call.outcome.AccessIssued? <==> RefreshAccepts(p, w, token))
      && (RefreshAccepts(p, w, token) ==>
            var user := FindByEmail(w.users, p.decode(token).value.email).value;
            var access := Sign(p, w.now, user.email, RoleOf(w, user), QUARTER_HOUR);
            t == Turn(CacheSession(Note(w, Refreshed(id, user.id, token, w.now)), user.id, access, Fine, Fine),
                      Done(AccessIssued(token, access))))
  {
    hide SignUpTurn, ConfirmTurn, SignInTurn, LogoutTurn, ResetTurn, CacheSession, RunAlone;
    RefreshAlone(p, w, id, token);
    if RefreshAccepts(p, w, token) {
      StepAlone(p, w, id, RefreshStart(token), ALWAYS_FINE, 0);
      var t1 := RefreshTurn(p, w, id, RefreshStart(token), Fine);
      StepAlone(p, w, id, t1.call, ALWAYS_FINE, 1);
      var t2 := RefreshTurn(p, w, id, t1.call, Fine);
      StepAlone(p, w, id, t2.call, ALWAYS_FINE, 2);
      var t3 := RefreshTurn(p, w, id, t2.call, Fine);
      RefreshStores(p, t3.world, id, t3.call, ALWAYS_FINE);
    }
  }

  ghost predicate EmailTaken(w: World, email: string) {
    exists u :: u in w.users && u.email == email
  }

  /** A whole sign-up ends in a conflict when the email as given is taken, else in a bad request when there is
    * no such role, else in a conflict when its lower case or the new id is taken; else one account is added,
    * not confirmed, under the lower-cased email. */
  lemma SignUpAdmits(p: Platform, w: World, id: nat, c: Call)
    requires c.SignUpStart?
    ensures var t := RunAlone(p, w, id, c, ALWAYS_FINE, 0);
      var noRole := c.roleName == "" || c.roleName !in w.roles;
      var taken := EmailTaken(w, p.lower(c.email)) || exists u :: u in w.users && u.id == c.newId;
      && t.call == Done(
           if EmailTaken(w, c.email) then Failed(Conflict) else if noRole then Failed(BadRequest)
           else if taken then Failed(Conflict) else SignedUp(p.lower(c.email)))
      && t.world.users == w.users
           + if t.call == Done(SignedUp(p.lower(c.email)))
             then [User(c.newId, p.lower(c.email), c.hash, c.roleName, c.status, false)] else []
  {
    SignUpTurns(p, w, id, c);
    hide RunAlone;
  }

  lemma CachedWithLifetime(w: World, u: string, t: string)
    ensures var w' := CacheSession(w, u, t, Fine, Fine);
      w'.store == w.store[SessionKey(u, t) := Entry("active", Some(w.now + 1000 * DAY))]
      && w'.users == w.users && w'.now == w.now
    ensures var w' := CacheRefresh(w, u, t, Fine, Fine);
      w'.store == w.store[RefreshKey(u, t) := Entry("active", Some(w.now + 1000 * WEEK))]
      && w'.users == w.users && w'.now == w.now
  {
  }

  /** The world after a sign-in that was let through: both entries with their lifetimes, and four events. */
  ghost predicate BothStored(w: World, w': World, u: User, access: string, refresh: string) {
    && w'.now == w.now && w'.users == w.users
    && w'.store == w.store
         [SessionKey(u.id, access) := Entry("active", Some(w.now + 1000 * DAY))]
         [RefreshKey(u.id, refresh) := Entry("active", Some(w.now + 1000 * WEEK))]
    && w'.log == w.log + [Issued(u.id, refresh)] + [SessionStored(u.id, access)] + [Stored(u.id, refresh)]
         + [SignedIn(u.id, u.email, refresh)]
  }

  lemma SignInTokens(p: Platform, w: World, id: nat, c: Call)
    requires c.SignInChecked?
    ensures var t := RunAlone(p, w, id, c, ALWAYS_FINE, 1);
      var u, r, a := c.user, Sign(p, w.now, c.email, c.role, WEEK), Sign(p, w.now, c.email, c.role, TEN_HOURS);
      t.call == Done(TokensIssued(u.id, a, r)) && BothStored(w, t.world, u, a, r)
  {
    hide RunAlone, Sign, Set, Expire;
    var refresh := Sign(p, w.now, c.email, c.role, WEEK);
    var access := Sign(p, w.now, c.email, c.role, TEN_HOURS);
    SignInSigns(p, w, id, c, ALWAYS_FINE);
    var w1 := Note(w, Issued(c.user.id, refresh));
    SignInStores(p, w1, id, SignInSigned(c.user, access, refresh), ALWAYS_FINE);
    CachedWithLifetime(w1, c.user.id, access);
    CachedWithLifetime(CacheSession(w1, c.user.id, access, Fine, Fine), c.user.id, refresh);
  }

  lemma SignInAlone(p: Platform, w: World, id: nat, email: string, password: string)
    ensures var t := RunAlone(p, w, id, SignInStart(email, password), ALWAYS_FINE, 0);
      var checked := SignInCheck(p, w, p.lower(email), password);
      if checked.Done? then t == Turn(w, checked)
         else
           var u, r := checked.user, Sign(p, w.now, checked.email, checked.role, WEEK);
           var a := Sign(p, w.now, checked.email, checked.role, TEN_HOURS);
           t.call == Done(TokensIssued(u.id, a, r)) && BothStored(w, t.world, u, a, r)
  {
    hide RunAlone, Sign, BothStored;
    var checked := SignInCheck(p, w, p.lower(email), password);
    StepAlone(p, w, id, SignInStart(email, password), ALWAYS_FINE, 0);
    if checked.Done? {
      DoneAlone(p, w, id, checked, ALWAYS_FINE, 1);
    } else {
      SignInTokens(p, w, id, checked);
    }
  }

  /** An account this sign-in is for, with the right password and in a state to sign in here. */
  ghost predicate Admits(p: Platform, w: World, u: User, email: string, password: string) {
    && u.email == p.lower(email) && u.verified && p.matches(password, u.password)
    && (u.role in w.roles ==> w.roles[u.role].name != "ADMIN" && w.roles[u.role].name != "SUPER_ADMIN")
  }

  /** A whole sign-in issues tokens exactly when the lower-cased email is one and some account admits it,
    * and issues them to that account. */
  lemma SignInAdmits(p: Platform, w: World, id: nat, email: string, password: string)
    requires UniqueRows(w.users)
    ensures var c := RunAlone(p, w, id, SignInStart(email, password), ALWAYS_FINE, 0).call;
      && c.Done?
      && (c.outcome.TokensIssued? <==>
            p.isEmail(p.lower(email)) && exists u :: u in w.users && Admits(p, w, u, email, password))
      && (c.outcome.TokensIssued? ==>
            forall u :: u in w.users && Admits(p, w, u, email, password) ==> u.id == c.outcome.user)
  {
    hide RunAlone, Sign;
    SignInAlone(p, w, id, email, password);
    forall u | u in w.users && u.email == p.lower(email) ensures FindByEmail(w.users, p.lower(email)) == Some(u) {
      var i :| 0 <= i < |w.users| && w.users[i] == u;
      var j :| 0 <= j < |w.users| && w.users[j] == FindByEmail(w.users, p.lower(email)).value;
    }
  }

  /** The account whose refresh entry a logout of the token deletes. */
  function LogoutTarget(p: Platform, w: World, token: string): Option<User> {
    match Verify(p, w.now, token)
    case None => None
    case Some(claims) => if p.isEmail(claims.email) then FindByEmail(w.users, claims.email) else None
  }

  lemma LogoutAlone(p: Platform, w: World, id: nat, token: string)
    ensures var t := RunAlone(p, w, id, LogoutStart(token), ALWAYS_FINE, 0);
      t == Turn(match LogoutTarget(p, w, token)
                case None => w
                case Some(user) => DelRefresh(w, user.id, token, Fine),
                Done(LoggedOut))
  {
  }

  /** The world after a reset that was let through on the token stored at `source`. */
  function ResetEffect(w: World, id: nat, userId: string, hash: string, source: nat): World {
    var w1 := Note(w, ResetRead(id, userId, source));
    match FindById(w.users, userId)
    case None => w1
    case Some(user) =>
      DelReset(
        Note(w1.(users := SaveRow(w.users, user.(password := hash))), PasswordChanged(id, userId, source)),
        userId, Fine)
  }

  /** Loading the account, saving it with the new password, and deleting the token. */
  lemma ResetTail(p: Platform, w: World, id: nat, c: Call, fs: nat -> Fault)
    requires c.ResetAllowed?
    ensures RunAlone(p, w, id, c, fs, 1) ==
      match FindById(w.users, c.userId)
      case None => Turn(w, Done(Failed(NotFound)))
      case Some(user) =>
        Turn(DelReset(
               Note(w.(users := SaveRow(w.users, user.(password := c.hash))), PasswordChanged(id, c.userId, c.source)),
               c.userId, fs(3)),
             Done(PasswordReset))
  {
  }

  lemma ResetAlone(p: Platform, w: World, id: nat, userId: string, token: string, hash: string)
    ensures var t := RunAlone(p, w, id, ResetStart(userId, token, hash), ALWAYS_FINE, 0);
      var read := ResetTurn(w, id, ResetStart(userId, token, hash), Fine);
      t.world == if read.call.Done? then w else ResetEffect(w, id, userId, hash, read.call.source)
  {
    StepAlone(p, w, id, ResetStart(userId, token, hash), ALWAYS_FINE, 0);
    var t1 := ResetTurn(w, id, ResetStart(userId, token, hash), Fine);
    if t1.call.Done? {
      DoneAlone(p, w, id, t1.call, ALWAYS_FINE, 1);
    } else {
      hide RunAlone;
      ResetTail(p, t1.world, id, t1.call, ALWAYS_FINE);
    }
  }

  /** A whole reset changes a password exactly when the live entry is the non-empty token given and the
    * account exists; the entry is gone then. Otherwise accounts and cache stay as they were. */
  lemma ResetAdmits(p: Platform, w: World, id: nat, userId: string, token: string, hash: string)
    ensures var t := RunAlone(p, w, id, ResetStart(userId, token, hash), ALWAYS_FINE, 0);
      var found := FindById(w.users, userId);
      && t.call == Done(
           if token == "" || Get(w.store, ResetKey(userId), w.now) != Some(token) then Failed(BadRequest)
           else if found.None? then Failed(NotFound) else PasswordReset)
      && (t.call.outcome == PasswordReset ==>
            && t.world.users == SaveRow(w.users, found.value.(password := hash))
            && t.world.store == w.store - {ResetKey(userId)})
      && (t.call.outcome != PasswordReset ==> t.world.users == w.users && t.world.store == w.store)
  {
    hide SignUpTurn, ConfirmTurn, SignInTurn, RefreshTurn, LogoutTurn, SaveRow, FindById, Holding;
    StepAlone(p, w, id, ResetStart(userId, token, hash), ALWAYS_FINE, 0);
    var t1 := ResetTurn(w, id, ResetStart(userId, token, hash), Fine);
    if t1.call.Done? {
      DoneAlone(p, w, id, t1.call, ALWAYS_FINE, 1);
    } else {
      hide RunAlone;
      ResetTail(p, t1.world, id, t1.call, ALWAYS_FINE);
    }
  }

  // ----- calls in flight against calls alone -----

  /** Without errors a pending refresh gets, at its cache read, the answer a whole refresh made at that
    * instant would get; or else its token expired since it was verified and the entry is still there. */
  lemma RefreshLinearises(p: Platform, w: World, id: nat, c: Call)
    requires WorldOk(p, w) && c.RefreshFound? && CallOk(p, w, id, c)
    ensures RefreshTurn(p, w, id, c, Fine).call.RefreshAllowed? <==>
      || RefreshAccepts(p, w, c.token)
      || (Verify(p, w.now, c.token).None? && Live(w.store, RefreshKey(c.user.id, c.token), w.now))
  {
  }

  /** Without errors a pending logout deletes what a whole logout made at that instant would delete; when its
    * token expired since it was verified, it still deletes and a whole logout does nothing. */
  lemma LogoutLinearises(p: Platform, w: World, id: nat, c: Call)
    requires WorldOk(p, w) && c.LogoutFound? && CallOk(p, w, id, c)
    ensures Verify(p, w.now, c.token).Some? ==>
      LogoutTurn(p, w, c, Fine) == RunAlone(p, w, id, LogoutStart(c.token), ALWAYS_FINE, 0)
    ensures Verify(p, w.now, c.token).None? ==>
      RunAlone(p, w, id, LogoutStart(c.token), ALWAYS_FINE, 0).world == w
      && LogoutTurn(p, w, c, Fine).world == DelRefresh(w, c.user.id, c.token, Fine)
    ensures NoColon(c.user.id)
  {
    RowsUnique(p, w);
    OwnerFound(w.users, c.user.id, p.decode(c.token).value.email);
    LogoutAlone(p, w, id, c.token);
  }

  /** In every run a refresh whose cache read answers now ends as a whole refresh made at this instant
    * would, except that one whose token has just expired may still find the entry. */
  lemma EveryReadLinearises(p: Platform, now: nat, roles: map<string, Role>, steps: seq<Step>, id: nat)
    requires Sound(p)
    requires var s := Exec(p, Fresh(now, roles), steps); id in s.calls && s.calls[id].RefreshFound?
    ensures var s := Exec(p, Fresh(now, roles), steps);
      var c := s.calls[id];
      Apply(p, s, Resume(id, Fine)).calls[id].RefreshAllowed? <==>
        Granted(RunAlone(p, s.world, id, RefreshStart(c.token), ALWAYS_FINE, 0))
        || (Verify(p, s.world.now, c.token).None? && Live(s.world.store, RefreshKey(c.user.id, c.token), s.world.now))
  {
    hide WorldOk, CallOk, RunAlone, RefreshTurn, RefreshAccepts, Exec;
    var s := Exec(p, Fresh(now, roles), steps);
    EveryRunOk(p, now, roles, steps);
    RefreshLinearises(p, s.world, id, s.calls[id]);
    RefreshAlone(p, s.world, id, s.calls[id].token);
  }

  /** In every run a logout whose delete takes effect now leaves the world as a whole logout made at this
    * instant would; or its token has expired, a whole logout would do nothing, and this one deletes. */
  lemma EveryDeleteLinearises(p: Platform, now: nat, roles: map<string, Role>, steps: seq<Step>, id: nat)
    requires Sound(p)
    requires var s := Exec(p, Fresh(now, roles), steps); id in s.calls && s.calls[id].LogoutFound?
    ensures var s := Exec(p, Fresh(now, roles), steps);
      var c, w' := s.calls[id], Apply(p, s, Resume(id, Fine)).world;
      var whole := RunAlone(p, s.world, id, LogoutStart(c.token), ALWAYS_FINE, 0).world;
      if Verify(p, s.world.now, c.token).Some? then w' == whole
      else whole == s.world && w' == DelRefresh(s.world, c.user.id, c.token, Fine) && NoColon(c.user.id)
  {
    hide WorldOk, CallOk, RunAlone, LogoutTurn, Exec;
    var s := Exec(p, Fresh(now, roles), steps);
    EveryRunOk(p, now, roles, steps);
    LogoutLinearises(p, s.world, id, s.calls[id]);
  }

  lemma ColonFree(p: Platform, w: World, email: string)
    requires WorldOk(p, w)
    ensures FindByEmail(w.users, email).Some? ==> NoColon(FindByEmail(w.users, email).value.id)
  {
    if FindByEmail(w.users, email).Some? {
      FoundLoaded(p, w, FindByEmail(w.users, email).value);
    }
  }

  lemma DeleteKeeps(w: World, user: string, token: string)
    ensures var w' := DelRefresh(w, user, token, Fine); w'.users == w.users && w'.now == w.now && w'.roles == w.roles
  {
  }

  lemma DeleteOthers(w: World, user: string, token: string, u: string, t: string)
    requires NoColon(user) && NoColon(u)
    ensures var w' := DelRefresh(w, user, token, Fine);
      Get(w'.store, RefreshKey(u, t), w'.now) ==
        if u == user && t == token then None else Get(w.store, RefreshKey(u, t), w.now)
  {
    RefreshKeyInjective(u, t, user, token);
  }

  /** What the delete of an expired token changes: the answer of no whole refresh, of any token; and of the
    * refreshes in flight only those of this token and account, which were verified before it expired. */
  lemma LateDelete(p: Platform, w: World, user: string, token: string, t: string, id: nat, c: Call)
    requires WorldOk(p, w) && NoColon(user) && Verify(p, w.now, token).None?
    requires c.RefreshFound? && CallOk(p, w, id, c)
    ensures var w' := DelRefresh(w, user, token, Fine);
      && (RefreshAccepts(p, w', t) <==> RefreshAccepts(p, w, t))
      && (RefreshTurn(p, w', id, c, Fine).call.RefreshAllowed? <==>
            RefreshTurn(p, w, id, c, Fine).call.RefreshAllowed? && !(c.token == token && c.user.id == user))
  {
    if Verify(p, w.now, t).Some? {
      var email := Verify(p, w.now, t).value.email;
      ColonFree(p, w, email);
      if FindByEmail(w.users, email).Some? {
        DeleteOthers(w, user, token, FindByEmail(w.users, email).value.id, t);
      }
    }
    DeleteOthers(w, user, token, c.user.id, c.token);
    DeleteKeeps(w, user, token);
  }

  // ----- sequential runs -----

  /** One whole call, or a step that belongs to no call. */
  datatype Op = Act(call: Call) | Env(step: Step)

  predicate Possible(op: Op) {
    match op
    case Act(call) => Starts(call)
    case Env(step) => !step.Begin? && !step.Resume?
  }

  function After(p: Platform, w: World, id: nat, op: Op): World {
    match op
    case Act(call) => RunAlone(p, w, id, call, ALWAYS_FINE, 0).world
    case Env(step) => Apply(p, Sys(w, map[]), step).world
  }

  /** The n-th operation of a run is call number n. */
  function Sequence(p: Platform, start: World, ops: seq<Op>): World {
    if ops == [] then start
    else
      var n := |ops| - 1;
      After(p, Sequence(p, start, ops[..n]), n, ops[n])
  }

  /** What a client sees of an operation, as far as refresh tokens go. */
  datatype Api = GotTokens(refresh: string, at: nat) | AskedLogout(token: string) | Other

  function Answer(p: Platform, w: World, id: nat, op: Op): Api {
    if op.Act? && op.call.SignInStart? then
      var c := RunAlone(p, w, id, op.call, ALWAYS_FINE, 0).call;
      if c.Done? && c.outcome.TokensIssued? then GotTokens(c.outcome.refresh, w.now) else Other
    else if op.Act? && op.call.LogoutStart? then AskedLogout(op.call.token)
    else Other
  }

  function History(p: Platform, start: World, ops: seq<Op>): seq<Api> {
    if ops == [] then []
    else
      var n := |ops| - 1;
      History(p, start, ops[..n]) + [Answer(p, Sequence(p, start, ops[..n]), n, ops[n])]
  }

  ghost predicate GoodSince(h: seq<Api>, i: nat, token: string, now: nat) {
    && i < |h| && h[i].GotTokens? && h[i].refresh == token
    && AskedLogout(token) !in h[i + 1..]
    && now / 1000 < h[i].at / 1000 + 604800
  }

  /** The specification: some sign-in handed the token out, no logout of it was asked since, and fewer
    * than seven days have passed. */
  ghost predicate HistoryAllows(h: seq<Api>, token: string, now: nat) {
    exists i :: GoodSince(h, i, token, now)
  }
}

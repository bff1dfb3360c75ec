/** Two promises that hold for one call at a time and fail in flight, with a run or the exact condition. */
module AuthCorners {
  import opened Wrappers
  import opened CacheKeys
  import opened Accounts
  import opened Tokens
  import opened Redis
  import opened AuthMachine
  import opened AuthInvariants
  import opened AuthRuns
  import opened AuthSequential
  import opened AuthHistory

  // ----- a refresh verified just before expiry and read just after -----

  /** Appends one step to a run from scratch. */
  lemma Then(p: Platform, start: World, steps: seq<Step>, step: Step) returns (steps': seq<Step>)
    requires ErrorFree(steps) && (step.Resume? ==> step.fault == Fine)
    ensures ErrorFree(steps') && Exec(p, start, steps') == Apply(p, Exec(p, start, steps), step)
  {
    steps' := steps + [step];
    assert steps'[..|steps|] == steps;
  }

  lemma ThenAlone(p: Platform, start: World, steps: seq<Step>, id: nat, k: nat) returns (steps': seq<Step>)
    requires ErrorFree(steps) && k <= LONGEST
    requires id in Exec(p, start, steps).calls && TurnsLeft(Exec(p, start, steps).calls[id]) <= LONGEST - k
    ensures var s := Exec(p, start, steps);
      var t := RunAlone(p, s.world, id, s.calls[id], ALWAYS_FINE, k);
      ErrorFree(steps') && Exec(p, start, steps') == Sys(t.world, s.calls[id := t.call])
  {
    var s := Exec(p, start, steps);
    var rest := AloneIsRun(p, s, id, ALWAYS_FINE, k);
    steps' := steps + rest;
    RunAppend(p, Sys(start, map[]), steps, rest);
  }

  lemma SignUpAlone(p: Platform, w: World, id: nat, c: Call)
    requires c.SignUpStart? && w.users == [] && c.roleName != "" && c.roleName in w.roles
    ensures var user := User(c.newId, p.lower(c.email), c.hash, c.roleName, c.status, false);
      RunAlone(p, w, id, c, ALWAYS_FINE, 0).world == AddUser(w, id, user)
  {
  }

  lemma ConfirmAlone(p: Platform, w: World, id: nat, user: User)
    requires w.users == [user]
    ensures var w' := RunAlone(p, w, id, ConfirmStart(user.email), ALWAYS_FINE, 0).world;
      w'.users == [user.(verified := true, status := Active)]
      && w'.roles == w.roles && w'.store == w.store && w'.now == w.now
  {
  }

  /** One confirmed account. */
  lemma OneAccount(p: Platform, user: User, role: Role) returns (steps: seq<Step>)
    requires Sound(p) && NoColon(user.id) && p.lower(user.email) == user.email
    requires user.verified && user.status == Active && user.role == role.name != ""
    ensures ErrorFree(steps)
    ensures var s := Exec(p, Fresh(0, map[role.name := role]), steps);
      s.world.users == [user] && s.world.store == map[] && s.world.now == 0
      && s.world.roles == map[role.name := role] && 2 !in s.calls && 3 !in s.calls
  {
    var start := Fresh(0, map[role.name := role]);
    var signUp := SignUpStart(user.email, role.name, user.password, Active, user.id);
    var ops := [Act(signUp), Act(ConfirmStart(user.email))];
    steps := SequenceIsRun(p, 0, map[role.name := role], ops);
    SignUpAlone(p, start, 0, signUp);
    var w1 := RunAlone(p, start, 0, signUp, ALWAYS_FINE, 0).world;
    ConfirmAlone(p, w1, 1, user.(verified := false));
    assert ops[..1] == [Act(signUp)] && ops[..1][..0] == [];
    assert Sequence(p, start, ops[..1][..0]) == start;
    assert Sequence(p, start, ops[..1]) == w1;
  }

  /** Signing in at instant 0, up to the checks. */
  lemma LateCheck(p: Platform, user: User, role: Role, password: string) returns (steps: seq<Step>)
    requires Sound(p) && NoColon(user.id) && p.lower(user.email) == user.email && p.isEmail(user.email)
    requires user.verified && user.status == Active && user.role == role.name
    requires role.name !in {"", "ADMIN", "SUPER_ADMIN"} && p.matches(password, user.password)
    ensures ErrorFree(steps)
    ensures var s := Exec(p, Fresh(0, map[role.name := role]), steps);
      s.world.users == [user] && s.world.now == 0 && 3 !in s.calls && 2 in s.calls
      && s.calls[2] == SignInChecked(user, Some(role), user.email)
  {
    hide SignUpTurn, ConfirmTurn, RefreshTurn, LogoutTurn, ResetTurn, Run, Exec, ErrorFree;
    var start := Fresh(0, map[role.name := role]);
    steps := OneAccount(p, user, role);
    assert FindByEmail([user], user.email) == Some(user);
    steps := Then(p, start, steps, Begin(2, SignInStart(user.email, password)));
    steps := Then(p, start, steps, Resume(2, Fine));
  }

  /** Signing in at instant 0, up to the first cache command. */
  lemma LateSign(p: Platform, user: User, role: Role, password: string) returns (steps: seq<Step>)
    requires Sound(p) && NoColon(user.id) && p.lower(user.email) == user.email && p.isEmail(user.email)
    requires user.verified && user.status == Active && user.role == role.name
    requires role.name !in {"", "ADMIN", "SUPER_ADMIN"} && p.matches(password, user.password)
    ensures ErrorFree(steps)
    ensures var s := Exec(p, Fresh(0, map[role.name := role]), steps);
      s.world.users == [user] && s.world.now == 0 && 3 !in s.calls && 2 in s.calls
      && s.calls[2].SignInSigned? && s.calls[2].user == user
      && s.calls[2].refresh == Sign(p, 0, user.email, Some(role), WEEK)
  {
    hide SignUpTurn, ConfirmTurn, RefreshTurn, LogoutTurn, ResetTurn, Run, Exec, ErrorFree;
    var start := Fresh(0, map[role.name := role]);
    steps := LateCheck(p, user, role, password);
    steps := Then(p, start, steps, Resume(2, Fine));
    steps := Then(p, start, steps, Resume(2, Fine));
  }

  /** The cache entry of the refresh token is set a second after the token was signed. */
  lemma LateStore(p: Platform, user: User, role: Role, password: string)
    returns (steps: seq<Step>, token: string)
    requires Sound(p) && NoColon(user.id) && p.lower(user.email) == user.email && p.isEmail(user.email)
    requires user.verified && user.status == Active && user.role == role.name
    requires role.name !in {"", "ADMIN", "SUPER_ADMIN"} && p.matches(password, user.password)
    ensures ErrorFree(steps) && token == Sign(p, 0, user.email, Some(role), WEEK)
    ensures var s := Exec(p, Fresh(0, map[role.name := role]), steps);
      s.world.users == [user] && s.world.now == 1000 && 3 !in s.calls
      && RefreshKey(user.id, token) in s.world.store
      && s.world.store[RefreshKey(user.id, token)] == Entry("active", Some(1000 + 1000 * WEEK))
  {
    hide RunAlone;
    var start := Fresh(0, map[role.name := role]);
    steps := LateSign(p, user, role, password);
    steps := Then(p, start, steps, Tick(1000));
    var s := Exec(p, start, steps);
    token := s.calls[2].refresh;
    SignInStores(p, s.world, 2, s.calls[2], ALWAYS_FINE);
    steps := ThenAlone(p, start, steps, 2, 3);
  }

  /** A reachable error-free state in which a pending refresh is let through although a whole refresh
    * made at that instant is refused: it was verified in the last millisecond and reads after it. */
  lemma LateRead(p: Platform, user: User, role: Role, password: string)
    returns (steps: seq<Step>, token: string)
    requires Sound(p) && NoColon(user.id) && p.lower(user.email) == user.email && p.isEmail(user.email)
    requires user.verified && user.status == Active && user.role == role.name
    requires role.name !in {"", "ADMIN", "SUPER_ADMIN"} && p.matches(password, user.password)
    ensures ErrorFree(steps)
    ensures var s := Exec(p, Fresh(0, map[role.name := role]), steps);
      3 in s.calls && s.calls[3].RefreshFound? && s.calls[3].token == token
      && Advance(p, s.world, 3, s.calls[3], Fine).call.RefreshAllowed?
      && !RefreshAccepts(p, s.world, token)
  {
    hide Run, Exec, ErrorFree;
    var start := Fresh(0, map[role.name := role]);
    steps, token := LateStore(p, user, role, password);
    assert FindByEmail([user], user.email) == Some(user);
    steps := Then(p, start, steps, Tick(1000 * WEEK - 1001));
    steps := Then(p, start, steps, Begin(3, RefreshStart(token)));
    steps := Then(p, start, steps, Resume(3, Fine));
    steps := Then(p, start, steps, Resume(3, Fine));
    steps := Then(p, start, steps, Tick(1));
  }

  // ----- a password save that takes a confirmation back -----

  lemma SavedIsFound(rows: seq<User>, user: User)
    requires UniqueRows(rows) && Owns(rows, user.id, user.email)
    ensures FindById(SaveRow(rows, user), user.id) == Some(user)
  {
    SaveKeeps(rows, user);
    var i :| 0 <= i < |rows| && rows[i].id == user.id && rows[i].email == user.email;
    var rows' := SaveRow(rows, user);
    assert rows'[i] == user && rows'[i] in rows';
    var found := FindById(rows', user.id).value;
    var j :| 0 <= j < |rows'| && rows'[j] == found;
    assert i == j;
  }

  /** Saving a password writes every column as it was when the account was loaded: an account confirmed
    * in between stays confirmed exactly when it was confirmed already at that time. */
  lemma StaleSave(p: Platform, w: World, id: nat, c: Call, f: Fault)
    requires WorldOk(p, w) && c.ResetFound? && CallOk(p, w, id, c)
    ensures var found := FindById(Advance(p, w, id, c, f).world.users, c.user.id);
      found.Some? && (found.value.verified <==> c.user.verified) && found.value.password == c.hash
  {
    RowsUnique(p, w);
    SavedIsFound(w.users, c.user.(password := c.hash));
  }

  /** The account is there and confirmed. */
  ghost predicate ConfirmedIn(rows: seq<User>, id: string) {
    exists u :: u in rows && u.id == id && u.verified
  }

  /** A reset about to save a copy of the account that it loaded before the confirmation. */
  predicate Stale(c: Call, id: string) {
    c.ResetFound? && c.user.id == id && !c.user.verified
  }

  ghost predicate StalePending(s: Sys, id: string) {
    exists k :: k in s.calls && Stale(s.calls[k], id)
  }

  lemma SaveConfirms(rows: seq<User>, user: User, id: string)
    requires ConfirmedIn(rows, id) && (user.id == id ==> user.verified)
    ensures ConfirmedIn(SaveRow(rows, user), id)
  {
    var u :| u in rows && u.id == id && u.verified;
    var i :| 0 <= i < |rows| && rows[i] == u;
    assert SaveRow(rows, user)[i] in SaveRow(rows, user);
  }

  lemma FoundConfirmed(rows: seq<User>, id: string)
    requires UniqueRows(rows) && ConfirmedIn(rows, id)
    ensures FindById(rows, id).Some? && FindById(rows, id).value.verified
  {
    var u :| u in rows && u.id == id && u.verified;
    var i :| 0 <= i < |rows| && rows[i] == u;
    var j :| 0 <= j < |rows| && rows[j] == FindById(rows, id).value;
  }

  /** A turn that leaves the account confirmed and loads no stale copy of it. */
  ghost predicate LeavesConfirmed(t: Turn, id: string) {
    ConfirmedIn(t.world.users, id) && !Stale(t.call, id)
  }

  lemma SignUpLeavesConfirmed(p: Platform, w: World, k: nat, c: Call, id: string)
    requires (c.SignUpStart? || c.SignUpChecked? || c.SignUpRoled?) && ConfirmedIn(w.users, id)
    ensures LeavesConfirmed(SignUpTurn(p, w, k, c), id)
  {
    var u :| u in w.users && u.id == id && u.verified;
    assert u in SignUpTurn(p, w, k, c).world.users;
  }

  lemma ConfirmLeavesConfirmed(w: World, c: Call, id: string)
    requires (c.ConfirmStart? || c.ConfirmFound?) && ConfirmedIn(w.users, id)
    ensures LeavesConfirmed(ConfirmTurn(w, c), id)
  {
    hide ConfirmedIn, SaveRow;
    if c.ConfirmFound? {
      SaveConfirms(w.users, c.user.(verified := true, status := Active), id);
    }
  }

  lemma SignInLeavesConfirmed(p: Platform, w: World, c: Call, f: Fault, id: string)
    requires SigningIn(c) && ConfirmedIn(w.users, id)
    ensures LeavesConfirmed(SignInTurn(p, w, c, f), id)
  {
    hide ConfirmedIn;
  }

  lemma RefreshLeavesConfirmed(p: Platform, w: World, k: nat, c: Call, f: Fault, id: string)
    requires Refreshing(c) && ConfirmedIn(w.users, id)
    ensures LeavesConfirmed(RefreshTurn(p, w, k, c, f), id)
  {
    hide ConfirmedIn;
  }

  lemma LogoutLeavesConfirmed(p: Platform, w: World, c: Call, f: Fault, id: string)
    requires (c.LogoutStart? || c.LogoutVerified? || c.LogoutFound?) && ConfirmedIn(w.users, id)
    ensures LeavesConfirmed(LogoutTurn(p, w, c, f), id)
  {
    hide ConfirmedIn;
  }

  lemma ResetLeavesConfirmed(w: World, k: nat, c: Call, f: Fault, id: string)
    requires c.ResetStart? || c.ResetAllowed? || c.ResetFound? || c.ResetSaved?
    requires UniqueRows(w.users) && ConfirmedIn(w.users, id) && !Stale(c, id)
    ensures LeavesConfirmed(ResetTurn(w, k, c, f), id)
  {
    hide ConfirmedIn, SaveRow, UniqueRows, Holding, GetKey;
    if c.ResetFound? {
      SaveConfirms(w.users, c.user.(password := c.hash), id);
    } else if c.ResetAllowed? {
      FoundConfirmed(w.users, id);
    }
  }

  /** No turn but a stale save takes the confirmation back, and none loads a stale copy. */
  lemma TurnLeavesConfirmed(p: Platform, w: World, k: nat, c: Call, f: Fault, id: string)
    requires UniqueRows(w.users) && ConfirmedIn(w.users, id) && !Stale(c, id)
    ensures LeavesConfirmed(Advance(p, w, k, c, f), id)
  {
    hide SignUpTurn, ConfirmTurn, SignInTurn, RefreshTurn, LogoutTurn, ResetTurn, ConfirmedIn, UniqueRows;
    if SigningIn(c) {
      SignInLeavesConfirmed(p, w, c, f, id);
    } else if Refreshing(c) {
      RefreshLeavesConfirmed(p, w, k, c, f, id);
    } else if c.LogoutStart? || c.LogoutVerified? || c.LogoutFound? {
      LogoutLeavesConfirmed(p, w, c, f, id);
    } else if c.ConfirmStart? || c.ConfirmFound? {
      ConfirmLeavesConfirmed(w, c, id);
    } else if c.SignUpStart? || c.SignUpChecked? || c.SignUpRoled? {
      SignUpLeavesConfirmed(p, w, k, c, id);
    } else if !c.Done? {
      ResetLeavesConfirmed(w, k, c, f, id);
    }
  }

  lemma {:induction false} RunKeepsConfirmed(p: Platform, s: Sys, steps: seq<Step>, id: string)
    requires Sound(p) && SysOk(p, s) && ConfirmedIn(s.world.users, id) && !StalePending(s, id)
    ensures ConfirmedIn(Run(p, s, steps).world.users, id) && !StalePending(Run(p, s, steps), id)
  {
    if steps != [] {
      hide Advance, WorldOk, CallOk, ConfirmedIn, UniqueRows;
      var before, step := steps[..|steps| - 1], steps[|steps| - 1];
      RunKeepsConfirmed(p, s, before, id);
      RunKeeps(p, s, before);
      var s1 := Run(p, s, before);
      RowsUnique(p, s1.world);
      if step.Resume? && step.id in s1.calls {
        TurnLeavesConfirmed(p, s1.world, step.id, s1.calls[step.id], step.fault, id);
      }
    }
  }

  lemma AdvanceUnique(p: Platform, w: World, k: nat, c: Call)
    requires WorldOk(p, w) && CallOk(p, w, k, c) && c.ResetFound?
    ensures UniqueRows(Advance(p, w, k, c, Fine).world.users)
  {
    RowsUnique(p, w);
    SaveKeeps(w.users, c.user.(password := c.hash));
  }

  lemma StaleUnconfirms(p: Platform, s: Sys, k: nat, id: string)
    requires SysOk(p, s) && k in s.calls && Stale(s.calls[k], id)
    ensures !ConfirmedIn(Run(p, s, [Resume(k, Fine)]).world.users, id)
  {
    hide WorldOk, CallOk, Advance, SaveRow;
    var c := s.calls[k];
    var after := Run(p, s, [Resume(k, Fine)]);
    assert Run(p, s, [Resume(k, Fine)][..0]) == s;
    StaleSave(p, s.world, k, c, Fine);
    AdvanceUnique(p, s.world, k, c);
    if ConfirmedIn(after.world.users, id) {
      FoundConfirmed(after.world.users, id);
    }
  }

  /** A confirmed account stays confirmed in every continuation of a run if and only if no reset that is about
    * to save it holds a copy loaded before its confirmation. */
  lemma ConfirmationStays(p: Platform, s: Sys, id: string)
    requires Sound(p) && SysOk(p, s) && ConfirmedIn(s.world.users, id)
    ensures (forall steps :: ConfirmedIn(Run(p, s, steps).world.users, id)) <==> !StalePending(s, id)
  {
    if StalePending(s, id) {
      hide WorldOk, CallOk;
      var k :| k in s.calls && Stale(s.calls[k], id);
      StaleUnconfirms(p, s, k, id);
    } else {
      forall steps ensures ConfirmedIn(Run(p, s, steps).world.users, id) {
        RunKeepsConfirmed(p, s, steps, id);
      }
    }
  }

  /** An account that is not confirmed yet, and a reset token for it. */
  lemma TokenStored(p: Platform, user: User, role: Role) returns (steps: seq<Step>)
    requires Sound(p) && NoColon(user.id) && p.lower(user.email) == user.email
    requires !user.verified && user.role == role.name != ""
    ensures ErrorFree(steps)
    ensures var s := Exec(p, Fresh(0, map[role.name := role]), steps);
      s.world.users == [user] && 2 !in s.calls && 3 !in s.calls
      && Get(s.world.store, ResetKey(user.id), s.world.now) == Some("t")
  {
    hide Advance, Run, Exec, ErrorFree, RunAlone;
    var start := Fresh(0, map[role.name := role]);
    var signUp := SignUpStart(user.email, role.name, user.password, user.status, user.id);
    var ops := [Act(signUp), Env(StoreReset(user.id, "t", None))];
    steps := SequenceIsRun(p, 0, map[role.name := role], ops);
    SignUpAlone(p, start, 0, signUp);
    assert ops[..1] == [Act(signUp)] && ops[..1][..0] == [];
    assert Sequence(p, start, ops[..1][..0]) == start;
    assert Sequence(p, start, ops[..1]).users == [user];
  }

  /** A reset that has loaded an account which is not confirmed yet. */
  lemma PendingReset(p: Platform, user: User, role: Role, hash: string) returns (steps: seq<Step>)
    requires Sound(p) && NoColon(user.id) && p.lower(user.email) == user.email
    requires !user.verified && user.role == role.name != ""
    ensures ErrorFree(steps)
    ensures var s := Exec(p, Fresh(0, map[role.name := role]), steps);
      s.world.users == [user] && 3 !in s.calls && 2 in s.calls
      && s.calls[2].ResetFound? && s.calls[2].user == user && s.calls[2].hash == hash
  {
    hide SignUpTurn, ConfirmTurn, SignInTurn, RefreshTurn, LogoutTurn, Run, Exec, ErrorFree, Get, Holding;
    var start := Fresh(0, map[role.name := role]);
    steps := TokenStored(p, user, role);
    assert FindById([user], user.id) == Some(user);
    steps := Then(p, start, steps, Begin(2, ResetStart(user.id, "t", hash)));
    steps := Then(p, start, steps, Resume(2, Fine));
    steps := Then(p, start, steps, Resume(2, Fine));
  }

  /** A reachable error-free state in which an account that was confirmed is not: a reset loaded it before
    * the confirmation and saved it after. */
  lemma ConfirmationLost(p: Platform, user: User, role: Role, hash: string) returns (steps: seq<Step>)
    requires Sound(p) && NoColon(user.id) && p.lower(user.email) == user.email
    requires !user.verified && user.role == role.name != ""
    ensures ErrorFree(steps)
    ensures var w := Exec(p, Fresh(0, map[role.name := role]), steps).world;
      Confirmed(user.id, user.email) in w.log && w.users == [user.(password := hash)]
  {
    hide SignUpTurn, SignInTurn, RefreshTurn, LogoutTurn, Run, Exec, ErrorFree, Holding;
    var start := Fresh(0, map[role.name := role]);
    steps := PendingReset(p, user, role, hash);
    assert FindByEmail([user], user.email) == Some(user);
    steps := Then(p, start, steps, Begin(3, ConfirmStart(user.email)));
    steps := Then(p, start, steps, Resume(3, Fine));
    steps := Then(p, start, steps, Resume(3, Fine));
    assert Confirmed(user.id, user.email) in Exec(p, start, steps).world.log;
    steps := Then(p, start, steps, Resume(2, Fine));
  }

  /** No account that was confirmed stops being so. */
  ghost predicate StillVerified(rows: seq<User>, rows': seq<User>) {
    |rows| <= |rows'| && forall i :: 0 <= i < |rows| && rows[i].verified ==> rows'[i].verified
  }

  lemma FreshSave(p: Platform, w: World, id: string, hash: string)
    requires WorldOk(p, w) && FindById(w.users, id).Some?
    ensures StillVerified(w.users, SaveRow(w.users, FindById(w.users, id).value.(password := hash)))
  {
  }

  /** One call at a time, a password reset saves the account as it is. */
  lemma ResetKeepsVerified(p: Platform, w: World, id: nat, userId: string, token: string, hash: string)
    requires WorldOk(p, w)
    ensures StillVerified(w.users,
      RunAlone(p, w, id, ResetStart(userId, token, hash), ALWAYS_FINE, 0).world.users)
  {
    ResetAlone(p, w, id, userId, token, hash);
    if FindById(w.users, userId).Some? {
      FreshSave(p, w, userId, hash);
    }
  }
}

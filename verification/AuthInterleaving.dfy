/** Each completed call of an error-free concurrent run ended as a whole call at one instant of it would. */
module AuthInterleaving {
  import opened Wrappers
  import opened CacheKeys
  import opened Accounts
  import opened Tokens
  import opened Redis
  import opened AuthMachine
  import opened AuthInvariants
  import opened AuthRuns
  import opened AuthTheorems
  import opened AuthSequential

  /** The call was begun by a step of the run. */
  ghost predicate Begun(p: Platform, start: World, steps: seq<Step>, id: nat, call: Call) {
    exists b :: 0 <= b < |steps| && steps[b] == Begin(id, call) && id !in Exec(p, start, steps[..b]).calls
  }

  lemma BegunBefore(p: Platform, start: World, before: seq<Step>, step: Step, id: nat, call: Call)
    requires Begun(p, start, before + [step], id, call)
    ensures Begun(p, start, before, id, call) || (step == Begin(id, call) && id !in Exec(p, start, before).calls)
  {
    hide Exec;
    var steps := before + [step];
    var b :| 0 <= b < |steps| && steps[b] == Begin(id, call) && id !in Exec(p, start, steps[..b]).calls;
    if b < |before| {
      assert steps[..b] == before[..b] && before[b] == steps[b];
    } else {
      assert steps[..b] == before;
    }
  }

  lemma StepLast(p: Platform, start: World, before: seq<Step>, step: Step)
    ensures Exec(p, start, before + [step]) == Apply(p, Exec(p, start, before), step)
  {
    assert (before + [step])[..|before|] == before;
  }

  // ----- refreshes -----

  /** Both were granted, or both failed with one error. The access tokens differ: each was signed in its turn. */
  predicate SameEnd(o: Outcome, o': Outcome) {
    if o.AccessIssued? then o'.AccessIssued? && o'.token == o.token else o.Failed? && o' == o
  }

  ghost predicate WholeEnds(p: Platform, w: World, id: nat, token: string, o: Outcome) {
    var c := RunAlone(p, w, id, RefreshStart(token), ALWAYS_FINE, 0).call;
    c.Done? && SameEnd(o, c.outcome)
  }

  /** The refresh is about to read the entry of a token that has expired since it was verified, and finds it. */
  ghost predicate ReadsLate(p: Platform, s: Sys, id: nat, token: string) {
    && id in s.calls && s.calls[id].RefreshFound?
    && Verify(p, s.world.now, token).None?
    && Live(s.world.store, RefreshKey(s.calls[id].user.id, token), s.world.now)
  }

  /** Before step k the refresh was pending, step k resumed it, and a whole refresh made then would have ended
    * as this one did; or this one read late. */
  ghost predicate RefreshPoint(
      p: Platform, start: World, steps: seq<Step>, k: nat, id: nat, token: string, o: Outcome)
  {
    && k < |steps| && steps[k] == Resume(id, Fine)
    && var s := Exec(p, start, steps[..k]);
    && id in s.calls && Refreshing(s.calls[id]) && s.calls[id].token == token
    && (WholeEnds(p, s.world, id, token, o) || (o.AccessIssued? && o.token == token && ReadsLate(p, s, id, token)))
  }

  ghost predicate HasPoint(p: Platform, start: World, steps: seq<Step>, id: nat, token: string, o: Outcome) {
    exists k :: RefreshPoint(p, start, steps, k, id, token, o)
  }

  /** What is known of a refresh at each of its stages. */
  ghost predicate Traced(p: Platform, start: World, steps: seq<Step>, id: nat, token: string) {
    var s := Exec(p, start, steps);
    && id in s.calls
    && match s.calls[id]
       case RefreshStart(t) => t == token
       case RefreshVerified(t, _, at) => t == token && Checked(p, start, steps, id, token, at)
       case RefreshFound(t, _, _, _) => t == token
       case RefreshAllowed(t, _, _) => t == token && HasPoint(p, start, steps, id, token, AccessIssued(token, ""))
       case RefreshSigned(t, _, _) => t == token && HasPoint(p, start, steps, id, token, AccessIssued(token, ""))
       case RefreshSessionSet(t, _, _) => t == token && HasPoint(p, start, steps, id, token, AccessIssued(token, ""))
       case Done(o) => HasPoint(p, start, steps, id, token, o)
       case _ => false
  }

  lemma PointGrows(p: Platform, start: World, before: seq<Step>, step: Step, id: nat, token: string, o: Outcome)
    requires HasPoint(p, start, before, id, token, o)
    ensures HasPoint(p, start, before + [step], id, token, o)
  {
    hide Exec, WholeEnds, ReadsLate;
    var k: nat :| RefreshPoint(p, start, before, k, id, token, o);
    assert (before + [step])[..k] == before[..k];
    assert RefreshPoint(p, start, before + [step], k, id, token, o);
  }

  /** Which access token was issued does not matter. */
  lemma PointOfAny(p: Platform, start: World, steps: seq<Step>, id: nat, token: string, access: string)
    requires HasPoint(p, start, steps, id, token, AccessIssued(token, ""))
    ensures HasPoint(p, start, steps, id, token, AccessIssued(token, access))
  {
    hide Exec, RunAlone;
    var k: nat :| RefreshPoint(p, start, steps, k, id, token, AccessIssued(token, ""));
    assert RefreshPoint(p, start, steps, k, id, token, AccessIssued(token, access));
  }

  /** The step just made is the point. */
  lemma PointHere(p: Platform, start: World, before: seq<Step>, id: nat, token: string, o: Outcome)
    requires var s := Exec(p, start, before);
      && id in s.calls && Refreshing(s.calls[id]) && s.calls[id].token == token
      && (WholeEnds(p, s.world, id, token, o) || (o.AccessIssued? && o.token == token && ReadsLate(p, s, id, token)))
    ensures HasPoint(p, start, before + [Resume(id, Fine)], id, token, o)
  {
    hide Exec, WholeEnds, ReadsLate;
    var steps := before + [Resume(id, Fine)];
    assert steps[..|before|] == before;
    assert RefreshPoint(p, start, steps, |before|, id, token, o);
  }

  /** How a whole refresh fails. */
  lemma WholeFails(p: Platform, w: World, id: nat, token: string)
    requires !RefreshAccepts(p, w, token)
    ensures WholeEnds(p, w, id, token, RefreshError(p, w, token))
  {
    hide RunAlone, RefreshAccepts;
    RefreshAlone(p, w, id, token);
  }

  /** A refresh turned away at its check, or because its account is missing. */
  lemma RefusedHere(p: Platform, start: World, before: seq<Step>, id: nat, token: string, o: Outcome)
    requires var s := Exec(p, start, before);
      && id in s.calls && Refreshing(s.calls[id]) && s.calls[id].token == token
      && !RefreshAccepts(p, s.world, token) && o == RefreshError(p, s.world, token)
    ensures HasPoint(p, start, before + [Resume(id, Fine)], id, token, o)
  {
    hide Exec, WholeEnds, RefreshAccepts, RefreshError, HasPoint;
    WholeFails(p, Exec(p, start, before).world, id, token);
    PointHere(p, start, before, id, token, o);
  }

  /** A refresh turned away because the email in its token is none: so would a whole one have been when it
    * checked the token. */
  lemma RefusedEarlier(p: Platform, start: World, before: seq<Step>, id: nat, token: string, claims: Claims, at: nat)
    requires ErrorFree(before) && Checked(p, start, before, id, token, at)
    requires p.decode(token) == Some(claims) && Unexpired(claims, at) && !p.isEmail(claims.email)
    ensures HasPoint(p, start, before, id, token, Failed(BadRequest))
  {
    hide Exec, RunAlone;
    var k: nat :| ChecksAt(p, start, before, k, id, token, at);
    WholeFails(p, Exec(p, start, before[..k]).world, id, token);
    assert RefreshPoint(p, start, before, k, id, token, Failed(BadRequest));
  }

  /** A refresh at its cache read. */
  lemma ReadHere(p: Platform, start: World, before: seq<Step>, id: nat, token: string)
    requires SysOk(p, Exec(p, start, before))
    requires var s := Exec(p, start, before);
      id in s.calls && s.calls[id].RefreshFound? && s.calls[id].token == token
    ensures var s := Exec(p, start, before);
      var c := RefreshTurn(p, s.world, id, s.calls[id], Fine).call;
      HasPoint(p, start, before + [Resume(id, Fine)], id, token,
        if c.RefreshAllowed? then AccessIssued(token, "") else Failed(Unauthorized))
  {
    hide Exec, RunAlone, WorldOk, HasPoint;
    var s := Exec(p, start, before);
    var c := s.calls[id];
    assert CallOk(p, s.world, id, c);
    RefreshLinearises(p, s.world, id, c);
    RefreshAlone(p, s.world, id, token);
    var allowed := RefreshTurn(p, s.world, id, c, Fine).call.RefreshAllowed?;
    var o := if allowed then AccessIssued(token, "") else Failed(Unauthorized);
    hide CallOk, RefreshTurn;
    PointHere(p, start, before, id, token, o);
  }

  lemma TraceStep(p: Platform, start: World, before: seq<Step>, id: nat, token: string)
    requires Sound(p) && ErrorFree(before) && SysOk(p, Exec(p, start, before)) && Traced(p, start, before, id, token)
    ensures Traced(p, start, before + [Resume(id, Fine)], id, token)
  {
    hide Exec, HasPoint, Checked, WorldOk;
    var s, step := Exec(p, start, before), Resume(id, Fine);
    var c := s.calls[id];
    StepLast(p, start, before, step);
    var t := Advance(p, s.world, id, c, Fine);
    assert CallOk(p, s.world, id, c);
    match c
    case RefreshStart(_) =>
      if t.call.Done? {
        RefusedHere(p, start, before, id, token, Failed(Unauthorized));
      } else {
        NewCheck(p, start, before, step);
      }
    case RefreshVerified(_, claims, at) =>
      if !p.isEmail(claims.email) {
        RefusedEarlier(p, start, before, id, token, claims, at);
        PointGrows(p, start, before, step, id, token, Failed(BadRequest));
      } else if t.call.Done? {
        RefusedHere(p, start, before, id, token, Failed(Unauthorized));
      }
    case RefreshFound(_, _, _, _) =>
      ReadHere(p, start, before, id, token);
    case RefreshAllowed(_, _, _) =>
      PointGrows(p, start, before, step, id, token, AccessIssued(token, ""));
    case RefreshSigned(_, _, access) =>
      PointGrows(p, start, before, step, id, token, AccessIssued(token, ""));
      PointOfAny(p, start, before + [step], id, token, access);
    case RefreshSessionSet(_, _, access) =>
      PointGrows(p, start, before, step, id, token, AccessIssued(token, ""));
      PointOfAny(p, start, before + [step], id, token, access);
    case Done(o) =>
      PointGrows(p, start, before, step, id, token, o);
  }

  /** A step that is not the call's own. */
  lemma TraceKept(p: Platform, start: World, before: seq<Step>, step: Step, id: nat, token: string)
    requires Traced(p, start, before, id, token) && !(step.Resume? && step.id == id)
    ensures Traced(p, start, before + [step], id, token)
  {
    hide Exec, HasPoint, Checked, Advance;
    StepLast(p, start, before, step);
    var c := Exec(p, start, before).calls[id];
    assert Exec(p, start, before + [step]).calls[id] == c;
    if c.RefreshVerified? {
      CheckedGrows(p, start, before, step, id, token, c.at);
    } else if c.Done? {
      PointGrows(p, start, before, step, id, token, c.outcome);
    } else if c.RefreshAllowed? || c.RefreshSigned? || c.RefreshSessionSet? {
      PointGrows(p, start, before, step, id, token, AccessIssued(token, ""));
    }
  }

  lemma NothingBegun(p: Platform, start: World, id: nat, call: Call)
    ensures !Begun(p, start, [], id, call)
  {
  }

  lemma TraceBegins(p: Platform, start: World, before: seq<Step>, id: nat, token: string)
    requires id !in Exec(p, start, before).calls
    ensures Traced(p, start, before + [Begin(id, RefreshStart(token))], id, token)
  {
    StepLast(p, start, before, Begin(id, RefreshStart(token)));
  }

  lemma {:induction false} EveryRefreshTraced(
      p: Platform, now: nat, roles: map<string, Role>, steps: seq<Step>, id: nat, token: string)
    requires Sound(p) && ErrorFree(steps) && Begun(p, Fresh(now, roles), steps, id, RefreshStart(token))
    ensures Traced(p, Fresh(now, roles), steps, id, token)
  {
    hide Exec, Traced, Begun, SysOk;
    var start := Fresh(now, roles);
    if steps == [] {
      assert false by { NothingBegun(p, start, id, RefreshStart(token)); }
    } else {
      var n := |steps| - 1;
      var before, step := steps[..n], steps[n];
      assert steps == before + [step];
      BegunBefore(p, start, before, step, id, RefreshStart(token));
      if Begun(p, start, before, id, RefreshStart(token)) {
        EveryRefreshTraced(p, now, roles, before, id, token);
        EveryRunOk(p, now, roles, before);
        if step.Resume? && step.id == id {
          TraceStep(p, start, before, id, token);
        } else {
          TraceKept(p, start, before, step, id, token);
        }
      } else {
        TraceBegins(p, start, before, id, token);
      }
    }
  }

  /** In every error-free run each completed refresh, granted or refused, ended as a whole refresh of its token
    * made at one of its own steps would have ended; only one that was granted may instead have read, at that
    * step, the live entry of a token that had just expired. */
  lemma CompletedRefreshLinearises(
      p: Platform, now: nat, roles: map<string, Role>, steps: seq<Step>, id: nat, token: string) returns (k: nat)
    requires Sound(p) && ErrorFree(steps) && Begun(p, Fresh(now, roles), steps, id, RefreshStart(token))
    requires var s := Exec(p, Fresh(now, roles), steps); id in s.calls && s.calls[id].Done?
    ensures RefreshPoint(p, Fresh(now, roles), steps, k, id, token,
                         Exec(p, Fresh(now, roles), steps).calls[id].outcome)
  {
    hide Exec, RefreshPoint, Begun;
    EveryRefreshTraced(p, now, roles, steps, id, token);
    k :| RefreshPoint(p, Fresh(now, roles), steps, k, id, token,
                      Exec(p, Fresh(now, roles), steps).calls[id].outcome);
  }

  // ----- logouts -----

  predicate LoggingOut(c: Call) {
    c.LogoutStart? || c.LogoutVerified? || c.LogoutFound?
  }

  /** Step k resumed the logout for the last time and did to the world what a whole logout made then would have
    * done; or its token had expired since it was verified, and it deleted the entry all the same. */
  ghost predicate LogoutPoint(p: Platform, start: World, steps: seq<Step>, k: nat, id: nat, token: string) {
    && k < |steps| && steps[k] == Resume(id, Fine)
    && var s, s' := Exec(p, start, steps[..k]), Exec(p, start, steps[..k + 1]);
    && id in s.calls && LoggingOut(s.calls[id]) && s.calls[id].token == token
    && id in s'.calls && s'.calls[id] == Done(LoggedOut)
    && (|| s'.world == RunAlone(p, s.world, id, LogoutStart(token), ALWAYS_FINE, 0).world
        || (s.calls[id].LogoutFound? && Verify(p, s.world.now, token).None?
            && s'.world == DelRefresh(s.world, s.calls[id].user.id, token, Fine)))
  }

  /** Step j, if it resumed the call, left the world as it was. */
  ghost predicate QuietAt(p: Platform, start: World, steps: seq<Step>, j: nat, id: nat)
    requires j < |steps|
  {
    steps[j].Resume? && steps[j].id == id ==>
      Exec(p, start, steps[..j + 1]).world == Exec(p, start, steps[..j]).world
  }

  /** A logout at each of its stages: so far without effect, or with the one of its last step. */
  ghost predicate LogoutTraced(p: Platform, start: World, steps: seq<Step>, id: nat, token: string) {
    var s := Exec(p, start, steps);
    && id in s.calls
    && if LoggingOut(s.calls[id]) then
         s.calls[id].token == token && forall j: nat :: j < |steps| ==> QuietAt(p, start, steps, j, id)
       else
         s.calls[id].Done?
         && exists k: nat :: LogoutPoint(p, start, steps, k, id, token)
              && forall j: nat :: j < |steps| && j != k ==> QuietAt(p, start, steps, j, id)
  }

  lemma QuietGrows(p: Platform, start: World, before: seq<Step>, step: Step, j: nat, id: nat)
    requires j < |before|
    ensures QuietAt(p, start, before + [step], j, id) <==> QuietAt(p, start, before, j, id)
  {
    hide Exec;
    var steps := before + [step];
    assert steps[..j] == before[..j] && steps[..j + 1] == before[..j + 1];
  }

  lemma LogoutPointGrows(p: Platform, start: World, before: seq<Step>, step: Step, k: nat, id: nat, token: string)
    requires LogoutPoint(p, start, before, k, id, token)
    ensures LogoutPoint(p, start, before + [step], k, id, token)
  {
    hide Exec, RunAlone, DelRefresh;
    var steps := before + [step];
    assert steps[..k] == before[..k] && steps[..k + 1] == before[..k + 1];
  }

  /** One more step of a logout in flight. */
  lemma LogoutStep(p: Platform, w: World, id: nat, c: Call, token: string)
    requires WorldOk(p, w) && CallOk(p, w, id, c) && LoggingOut(c) && c.token == token
    ensures var t := Advance(p, w, id, c, Fine);
      if LoggingOut(t.call) then t.call.token == token && t.world == w
      else
        && t.call == Done(LoggedOut)
        && (|| t.world == RunAlone(p, w, id, LogoutStart(token), ALWAYS_FINE, 0).world
            || (c.LogoutFound? && Verify(p, w.now, token).None? && t.world == DelRefresh(w, c.user.id, token, Fine)))
  {
    hide RunAlone, SignUpTurn, ConfirmTurn, SignInTurn, RefreshTurn, ResetTurn, DelRefresh;
    LogoutAlone(p, w, id, token);
    if c.LogoutFound? {
      LogoutLinearises(p, w, id, c);
    }
  }

  lemma KnownPoint(p: Platform, start: World, steps: seq<Step>, k: nat, id: nat, token: string)
    requires LogoutPoint(p, start, steps, k, id, token)
    ensures k < |steps|
  {
  }

  lemma DoneStays(p: Platform, s: Sys, step: Step, id: nat)
    requires id in s.calls && s.calls[id].Done?
    ensures Apply(p, s, step).calls[id] == s.calls[id]
  {
  }

  /** A step of another call, or of this one when it is done. */
  lemma QuietOther(p: Platform, start: World, before: seq<Step>, step: Step, id: nat)
    requires id in Exec(p, start, before).calls
    requires Exec(p, start, before).calls[id].Done? || !(step.Resume? && step.id == id)
    ensures QuietAt(p, start, before + [step], |before|, id)
  {
    var steps := before + [step];
    assert steps[..|before|] == before && steps[..|before| + 1] == steps;
    StepLast(p, start, before, step);
  }

  /** The logout's own step. */
  lemma LogoutHere(p: Platform, start: World, before: seq<Step>, id: nat, token: string)
    requires var s := Exec(p, start, before);
      && id in s.calls && LoggingOut(s.calls[id]) && s.calls[id].token == token
      && var t := Advance(p, s.world, id, s.calls[id], Fine);
      if LoggingOut(t.call) then t.world == s.world
      else
        && t.call == Done(LoggedOut)
        && (|| t.world == RunAlone(p, s.world, id, LogoutStart(token), ALWAYS_FINE, 0).world
            || (s.calls[id].LogoutFound? && Verify(p, s.world.now, token).None?
                && t.world == DelRefresh(s.world, s.calls[id].user.id, token, Fine)))
    ensures var s, steps := Exec(p, start, before), before + [Resume(id, Fine)];
      if LoggingOut(Advance(p, s.world, id, s.calls[id], Fine).call) then QuietAt(p, start, steps, |before|, id)
      else LogoutPoint(p, start, steps, |before|, id, token)
  {
    hide Exec, Advance, RunAlone, DelRefresh;
    var steps := before + [Resume(id, Fine)];
    assert steps[..|before|] == before && steps[..|before| + 1] == steps;
    StepLast(p, start, before, Resume(id, Fine));
  }

  lemma LogoutTraceStep(p: Platform, start: World, before: seq<Step>, step: Step, id: nat, token: string)
    requires SysOk(p, Exec(p, start, before)) && LogoutTraced(p, start, before, id, token)
    requires step.Resume? ==> step.fault == Fine
    ensures LogoutTraced(p, start, before + [step], id, token)
  {
    hide Exec, QuietAt, LogoutPoint, RunAlone, DelRefresh, WorldOk, CallOk, Advance;
    var steps, n, s := before + [step], |before|, Exec(p, start, before);
    StepLast(p, start, before, step);
    var c := s.calls[id];
    forall j: nat | j < n ensures QuietAt(p, start, steps, j, id) <==> QuietAt(p, start, before, j, id) {
      QuietGrows(p, start, before, step, j, id);
    }
    if LoggingOut(c) {
      if step == Resume(id, Fine) {
        LogoutStep(p, s.world, id, c, token);
        LogoutHere(p, start, before, id, token);
      } else {
        QuietOther(p, start, before, step, id);
      }
    } else {
      var k: nat :| LogoutPoint(p, start, before, k, id, token)
        && forall j: nat :: j < n && j != k ==> QuietAt(p, start, before, j, id);
      LogoutPointGrows(p, start, before, step, k, id, token);
      KnownPoint(p, start, before, k, id, token);
      QuietOther(p, start, before, step, id);
      DoneStays(p, s, step, id);
    }
  }

  lemma NotResumed(p: Platform, start: World, steps: seq<Step>, j: nat, id: nat)
    requires j < |steps| && (steps[j].Resume? && steps[j].id == id ==> id !in Exec(p, start, steps[..j]).calls)
    ensures QuietAt(p, start, steps, j, id)
  {
    hide Advance;
    assert steps[..j + 1] == steps[..j] + [steps[j]];
    StepLast(p, start, steps[..j], steps[j]);
  }

  lemma LogoutBegins(p: Platform, start: World, before: seq<Step>, id: nat, token: string)
    requires id !in Exec(p, start, before).calls
    requires forall j: nat :: j < |before| ==> QuietAt(p, start, before, j, id)
    ensures LogoutTraced(p, start, before + [Begin(id, LogoutStart(token))], id, token)
  {
    hide QuietAt, Exec;
    var steps, step := before + [Begin(id, LogoutStart(token))], Begin(id, LogoutStart(token));
    StepLast(p, start, before, step);
    forall j: nat | j < |steps| ensures QuietAt(p, start, steps, j, id) {
      if j < |before| {
        QuietGrows(p, start, before, step, j, id);
      } else {
        NotResumed(p, start, steps, j, id);
      }
    }
  }

  /** Before a call begins no step resumes it. */
  lemma {:induction false} QuietBefore(p: Platform, start: World, steps: seq<Step>, id: nat)
    requires id !in Exec(p, start, steps).calls
    ensures forall j: nat :: j < |steps| ==> QuietAt(p, start, steps, j, id)
  {
    if steps != [] {
      hide QuietAt, Advance, Exec;
      var n := |steps| - 1;
      var before, step := steps[..n], steps[n];
      assert steps == before + [step];
      StepLast(p, start, before, step);
      QuietBefore(p, start, before, id);
      forall j: nat | j < |steps| ensures QuietAt(p, start, steps, j, id) {
        if j < n {
          QuietGrows(p, start, before, step, j, id);
        } else {
          NotResumed(p, start, steps, j, id);
        }
      }
    }
  }

  lemma {:induction false} EveryLogoutTraced(
      p: Platform, now: nat, roles: map<string, Role>, steps: seq<Step>, id: nat, token: string)
    requires Sound(p) && ErrorFree(steps) && Begun(p, Fresh(now, roles), steps, id, LogoutStart(token))
    ensures LogoutTraced(p, Fresh(now, roles), steps, id, token)
  {
    hide Exec, LogoutTraced, Begun, SysOk, QuietAt;
    var start := Fresh(now, roles);
    if steps == [] {
      assert false by { NothingBegun(p, start, id, LogoutStart(token)); }
    } else {
      var n := |steps| - 1;
      var before, step := steps[..n], steps[n];
      assert steps == before + [step];
      BegunBefore(p, start, before, step, id, LogoutStart(token));
      if Begun(p, start, before, id, LogoutStart(token)) {
        EveryLogoutTraced(p, now, roles, before, id, token);
        EveryRunOk(p, now, roles, before);
        LogoutTraceStep(p, start, before, step, id, token);
      } else {
        QuietBefore(p, start, before, id);
        LogoutBegins(p, start, before, id, token);
      }
    }
  }

  /** In every error-free run each completed logout changed the world at its last step only, and there as a
    * whole logout of its token made at that step would have; or its token had expired since it was verified,
    * and it deleted the entry all the same. */
  lemma CompletedLogoutLinearises(
      p: Platform, now: nat, roles: map<string, Role>, steps: seq<Step>, id: nat, token: string) returns (k: nat)
    requires Sound(p) && ErrorFree(steps) && Begun(p, Fresh(now, roles), steps, id, LogoutStart(token))
    requires var s := Exec(p, Fresh(now, roles), steps); id in s.calls && s.calls[id].Done?
    ensures LogoutPoint(p, Fresh(now, roles), steps, k, id, token)
    ensures forall j: nat :: j < |steps| && j != k ==> QuietAt(p, Fresh(now, roles), steps, j, id)
  {
    hide Exec, LogoutPoint, Begun, QuietAt;
    EveryLogoutTraced(p, now, roles, steps, id, token);
    k :| LogoutPoint(p, Fresh(now, roles), steps, k, id, token)
      && forall j: nat :: j < |steps| && j != k ==> QuietAt(p, Fresh(now, roles), steps, j, id);
  }
}

/** assignPrivilege, whose lookups are never awaited, and the guard that reads what it stored. */
module Privileges {
  import opened Wrappers

  datatype Privilege = Privilege(id: string, name: string)

  /** The privilege table. */
  type Table = map<string, Privilege>

  // ----- the call, one event-loop turn at a time -----

  /** RoleAnswered: the awaited role lookup answers; the code then issues every privilege lookup and, when
    * there is a role, its save. LookupAnswered: the callback for the i-th requested id runs. Snapshot: the
    * save reads the role's list and either stores it or fails; failures are swallowed. */
  datatype Step =
    | RoleAnswered(found: bool)
    | LookupAnswered(i: nat)
    | Snapshot(fails: bool)

  datatype Call =
    | Waiting
    | Running(pending: set<nat>, available: seq<Privilege>, saving: bool, stored: Option<seq<Privilege>>)

  function Indices(n: nat): (s: set<nat>)
    ensures forall i: nat :: i in s <==> i < n
  {
    if n == 0 then {} else Indices(n - 1) + {n - 1}
  }

  function Found(table: Table, id: string): seq<Privilege> {
    if id in table then [table[id]] else []
  }

  function Apply(table: Table, requested: seq<string>, c: Call, step: Step): Call {
    match step
    case RoleAnswered(found) =>
      if c.Waiting? then Running(Indices(|requested|), [], found, None) else c
    case LookupAnswered(i) =>
      if c.Waiting? || i >= |requested| || i !in c.pending then c
      else c.(pending := c.pending - {i}, available := c.available + Found(table, requested[i]))
    case Snapshot(fails) =>
      if c.Waiting? || !c.saving then c
      else c.(saving := false, stored := if fails then None else Some(c.available))
  }

  function Run(table: Table, requested: seq<string>, steps: seq<Step>): Call {
    if steps == [] then Waiting
    else Apply(table, requested, Run(table, requested, steps[..|steps| - 1]), steps[|steps| - 1])
  }

  /** What each step does: every lookup is issued once the role has answered; each callback, once, pushes at the
    * end what its id found; the save reads the list as it is, once. */
  lemma StepsAre(table: Table, requested: seq<string>, c: Call, found: bool, i: nat, fails: bool)
    ensures var c' := Apply(table, requested, Waiting, RoleAnswered(found));
      && c'.Running? && c'.available == [] && c'.saving == found && c'.stored == None
      && forall k: nat :: k in c'.pending <==> k < |requested|
    ensures c.Running? && i < |requested| && i in c.pending ==>
      var c' := Apply(table, requested, c, LookupAnswered(i));
      && c'.Running? && c'.pending == c.pending - {i} && c'.saving == c.saving && c'.stored == c.stored
      && c'.available == if requested[i] in table then c.available + [table[requested[i]]] else c.available
    ensures c.Running? && c.saving ==>
      Apply(table, requested, c, Snapshot(fails)) ==
        Running(c.pending, c.available, false, if fails then None else Some(c.available))
  {
  }

  // ----- what the steps say -----

  /** The i-th lookup's callback has run. */
  ghost predicate Answered(steps: seq<Step>, i: nat) {
    exists j, k :: 0 <= j < k < |steps| && steps[j].RoleAnswered? && steps[k] == LookupAnswered(i)
  }

  /** The requested privileges that exist, in the order requested. */
  function Existing(table: Table, requested: seq<string>): seq<Privilege> {
    if requested == [] then []
    else Existing(table, requested[..|requested| - 1]) + Found(table, requested[|requested| - 1])
  }

  /** Existing are those that the table holds under a requested id; when it holds all, one for each id in order. */
  lemma {:induction false} ExistingIs(table: Table, requested: seq<string>)
    ensures forall x :: x in Existing(table, requested) <==>
      exists i :: 0 <= i < |requested| && requested[i] in table && table[requested[i]] == x
    ensures (forall id :: id in requested ==> id in table) ==>
      |Existing(table, requested)| == |requested|
      && forall i :: 0 <= i < |requested| ==> Existing(table, requested)[i] == table[requested[i]]
  {
    if requested != [] {
      var n := |requested| - 1;
      ExistingIs(table, requested[..n]);
      assert requested == requested[..n] + [requested[n]];
    }
  }

  /** Whether a requested id stands for a privilege. */
  function One(table: Table, id: string, x: Privilege): nat {
    if id in table && table[id] == x then 1 else 0
  }

  /** How often a privilege stands at the requested indices outside a set. */
  function Count(table: Table, requested: seq<string>, pending: set<nat>, x: Privilege): nat {
    if requested == [] then 0
    else
      var n := |requested| - 1;
      Count(table, requested[..n], pending, x) + if n in pending then 0 else One(table, requested[n], x)
  }

  lemma {:induction false} CountSame(table: Table, requested: seq<string>, p: set<nat>, q: set<nat>, x: Privilege)
    requires forall i: nat :: i < |requested| ==> (i in p <==> i in q)
    ensures Count(table, requested, p, x) == Count(table, requested, q, x)
  {
    if requested != [] {
      CountSame(table, requested[..|requested| - 1], p, q, x);
    }
  }

  lemma {:induction false} CountExisting(table: Table, requested: seq<string>, x: Privilege)
    ensures multiset(Existing(table, requested))[x] == Count(table, requested, {}, x)
    ensures Count(table, requested, Indices(|requested|), x) == 0
  {
    if requested != [] {
      var n := |requested| - 1;
      CountExisting(table, requested[..n], x);
      CountSame(table, requested[..n], Indices(n), Indices(n + 1), x);
    }
  }

  /** One more answer. */
  lemma {:induction false} CountMore(table: Table, requested: seq<string>, pending: set<nat>, i: nat, x: Privilege)
    requires i in pending && i < |requested|
    ensures Count(table, requested, pending - {i}, x)
      == Count(table, requested, pending, x) + One(table, requested[i], x)
  {
    var n := |requested| - 1;
    if i < n {
      CountMore(table, requested[..n], pending, i, x);
    } else {
      CountSame(table, requested[..n], pending, pending - {i}, x);
    }
  }

  /** Missing answers only take away, and take away exactly what they would have found. */
  lemma {:induction false} CountWithin(table: Table, requested: seq<string>, pending: set<nat>, x: Privilege)
    ensures Count(table, requested, pending, x) <= Count(table, requested, {}, x)
    ensures Count(table, requested, pending, x) == Count(table, requested, {}, x) <==>
      forall i: nat :: i < |requested| && i in pending ==> One(table, requested[i], x) == 0
  {
    if requested != [] {
      var n := |requested| - 1;
      CountWithin(table, requested[..n], pending, x);
      assert forall i :: 0 <= i < n ==> requested[..n][i] == requested[i];
    }
  }

  lemma AllWithin(table: Table, requested: seq<string>, pending: set<nat>, list: seq<Privilege>)
    requires forall x :: multiset(list)[x] == Count(table, requested, pending, x)
    ensures multiset(list) <= multiset(Existing(table, requested))
    ensures multiset(list) == multiset(Existing(table, requested)) <==>
      forall i: nat :: i < |requested| && i in pending ==> requested[i] !in table
  {
    var all := multiset(Existing(table, requested));
    forall x ensures all[x] == Count(table, requested, {}, x) && multiset(list)[x] <= all[x]
      ensures multiset(list)[x] == all[x] <==>
        forall i: nat :: i < |requested| && i in pending ==> One(table, requested[i], x) == 0
    {
      CountExisting(table, requested, x);
      CountWithin(table, requested, pending, x);
    }
    if i: nat :| i < |requested| && i in pending && requested[i] in table {
      var x := table[requested[i]];
      assert One(table, requested[i], x) == 1;
      assert multiset(list)[x] != all[x];
    }
  }

  // ----- every run -----

  ghost predicate Agrees(table: Table, requested: seq<string>, c: Call, steps: seq<Step>) {
    && (c.Waiting? <==> forall j :: 0 <= j < |steps| ==> !steps[j].RoleAnswered?)
    && (c.Running? ==>
         && (forall x :: multiset(c.available)[x] == Count(table, requested, c.pending, x))
         && (forall i: nat :: i in c.pending <==> i < |requested| && !Answered(steps, i)))
  }

  lemma CountNote(table: Table, requested: seq<string>, c: Call, step: Step, x: Privilege)
    requires c.Running? ==> multiset(c.available)[x] == Count(table, requested, c.pending, x)
    ensures var c' := Apply(table, requested, c, step);
      c'.Running? ==> multiset(c'.available)[x] == Count(table, requested, c'.pending, x)
  {
    hide Count, Existing;
    CountExisting(table, requested, x);
    if step.LookupAnswered? && c.Running? && step.i < |requested| && step.i in c.pending {
      CountMore(table, requested, c.pending, step.i, x);
    }
  }

  lemma AnsweredNote(steps: seq<Step>)
    requires steps != []
    ensures var n := |steps| - 1; forall i: nat :: Answered(steps, i) <==>
      Answered(steps[..n], i)
      || (steps[n] == LookupAnswered(i) && exists j :: 0 <= j < n && steps[j].RoleAnswered?)
  {
  }

  lemma {:induction false} RunAgrees(table: Table, requested: seq<string>, steps: seq<Step>)
    ensures Agrees(table, requested, Run(table, requested, steps), steps)
  {
    if steps != [] {
      hide Answered, Count;
      var n := |steps| - 1;
      var c := Run(table, requested, steps[..n]);
      RunAgrees(table, requested, steps[..n]);
      AnsweredNote(steps);
      forall x { CountNote(table, requested, c, steps[n], x); }
    }
  }

  /** What a save stores is what it finds in the list, and nothing stores again. */
  lemma {:induction false} StoredAtSnapshot(
      table: Table, requested: seq<string>, before: seq<Step>, fails: bool, after: seq<Step>)
    requires Run(table, requested, before).Running? && Run(table, requested, before).saving
    ensures var c := Run(table, requested, before + [Snapshot(fails)] + after);
      c.Running? && !c.saving
      && c.stored == if fails then None else Some(Run(table, requested, before).available)
  {
    var steps := before + [Snapshot(fails)] + after;
    if after == [] {
      assert steps[..|steps| - 1] == before;
    } else {
      StoredAtSnapshot(table, requested, before, fails, after[..|after| - 1]);
      assert steps[..|steps| - 1] == before + [Snapshot(fails)] + after[..|after| - 1];
    }
  }

  /** Whatever the interleaving, the list stored is a sub-multiset of the requested privileges that exist. It
    * holds all of them if and only if the lookup of each existing one was answered before the save read the
    * list. */
  lemma StoredList(table: Table, requested: seq<string>, before: seq<Step>, after: seq<Step>)
    requires Run(table, requested, before).Running? && Run(table, requested, before).saving
    ensures var c := Run(table, requested, before + [Snapshot(false)] + after);
      && c.Running? && c.stored.Some?
      && multiset(c.stored.value) <= multiset(Existing(table, requested))
      && (multiset(c.stored.value) == multiset(Existing(table, requested)) <==>
            forall i: nat :: i < |requested| && requested[i] in table ==> Answered(before, i))
  {
    var pending := Run(table, requested, before).pending;
    StoredAtSnapshot(table, requested, before, false, after);
    RunAgrees(table, requested, before);
    AllWithin(table, requested, pending, Run(table, requested, before).available);
  }

  /** Without a role, or before the save has read the list, nothing is stored. */
  lemma {:induction false} NothingStored(table: Table, requested: seq<string>, steps: seq<Step>)
    ensures var c := Run(table, requested, steps);
      c.Running? && (c.saving || c.stored.Some?) ==> exists j :: 0 <= j < |steps| && steps[j] == RoleAnswered(true)
    ensures var c := Run(table, requested, steps);
      c.Running? && c.stored.Some? ==> exists j :: 0 <= j < |steps| && steps[j] == Snapshot(false)
  {
    if steps != [] {
      NothingStored(table, requested, steps[..|steps| - 1]);
      assert forall j :: 0 <= j < |steps| - 1 ==> steps[..|steps| - 1][j] == steps[j];
      var last := |steps| - 1;
      assert steps[last] == steps[|steps| - 1];
    }
  }

  /** A save that reads the list at once takes every privilege from the role. */
  lemma PromptSaveStoresNone(table: Table, requested: seq<string>)
    ensures var c := Run(table, requested, [RoleAnswered(true), Snapshot(false)]);
      c.Running? && c.stored == Some([])
  {
    var steps := [RoleAnswered(true), Snapshot(false)];
    assert steps[..1] == [RoleAnswered(true)] && steps[..1][..0] == [];
    assert Run(table, requested, steps[..1]) == Apply(table, requested, Waiting, RoleAnswered(true));
  }

  // ----- the guard -----

  /** What hangs off the request: any link of user, userRole, userPrivileges may be missing. */
  datatype User = User(userRole: Option<RoleView>)
  datatype RoleView = RoleView(userPrivileges: Option<seq<Privilege>>)

  function Names(privileges: seq<Privilege>): seq<string> {
    seq(|privileges|, i requires 0 <= i < |privileges| => privileges[i].name)
  }

  function NamesOf(user: Option<User>): seq<string> {
    if user.Some? && user.value.userRole.Some? && user.value.userRole.value.userPrivileges.Some?
    then Names(user.value.userRole.value.userPrivileges.value)
    else []
  }

  /** Array.prototype.every. */
  predicate Every(s: seq<string>, p: string -> bool) {
    s == [] || (p(s[0]) && Every(s[1..], p))
  }

  /** True, or a ForbiddenException. */
  predicate CanActivate(required: Option<seq<string>>, user: Option<User>) {
    required.None? || |required.value| == 0
    || (var names := NamesOf(user); Every(required.value, privilege => privilege in names))
  }

  lemma {:induction false} EveryAll(s: seq<string>, p: string -> bool)
    ensures Every(s, p) <==> forall x :: x in s ==> p(x)
  {
    if s != [] {
      EveryAll(s[1..], p);
      assert forall x :: x in s <==> x == s[0] || x in s[1..];
    }
  }

  ghost predicate Requires(required: Option<seq<string>>, name: string) {
    required.Some? && name in required.value
  }

  ghost predicate NamedIn(privileges: seq<Privilege>, name: string) {
    exists p :: p in privileges && p.name == name
  }

  lemma NamesAre(privileges: seq<Privilege>, name: string)
    ensures name in Names(privileges) <==> NamedIn(privileges, name)
  {
    if name in Names(privileges) {
      var i :| 0 <= i < |privileges| && Names(privileges)[i] == name;
      assert privileges[i] in privileges;
    }
    if p :| p in privileges && p.name == name {
      var i :| 0 <= i < |privileges| && privileges[i] == p;
      assert Names(privileges)[i] == name;
    }
  }

  /** The guard lets a request through exactly when each required name is among the user's privileges. */
  lemma AllowedExactly(required: Option<seq<string>>, privileges: seq<Privilege>)
    ensures CanActivate(required, Some(User(Some(RoleView(Some(privileges)))))) <==>
      forall name :: Requires(required, name) ==> NamedIn(privileges, name)
  {
    var names := Names(privileges);
    if required.Some? {
      EveryAll(required.value, privilege => privilege in names);
    }
    forall name ensures name in names <==> NamedIn(privileges, name) {
      NamesAre(privileges, name);
    }
  }

  /** Without user, role or list, only a handler that requires nothing is open. */
  lemma AllowedBare(required: Option<seq<string>>, user: Option<User>)
    requires user.None? || user.value.userRole.None? || user.value.userRole.value.userPrivileges.None?
    ensures CanActivate(required, user) <==> forall name :: !Requires(required, name)
  {
    if required.Some? {
      EveryAll(required.value, privilege => privilege in NamesOf(user));
      if |required.value| > 0 {
        assert Requires(required, required.value[0]);
      }
    }
  }

  /** From assignment to guard: a user of the role never gets past a name that was not requested for it and,
    * when every existing privilege's lookup was answered in time, is stopped at no other. */
  lemma AssignedThenAllowed(table: Table, requested: seq<string>, before: seq<Step>, after: seq<Step>,
                            required: Option<seq<string>>)
    requires Run(table, requested, before).Running? && Run(table, requested, before).saving
    ensures var c := Run(table, requested, before + [Snapshot(false)] + after);
      && c.Running? && c.stored.Some?
      && var allowed := CanActivate(required, Some(User(Some(RoleView(c.stored)))));
        var asked := forall name :: Requires(required, name) ==> NamedIn(Existing(table, requested), name);
        && (allowed ==> asked)
        && ((forall i: nat :: i < |requested| && requested[i] in table ==> Answered(before, i)) ==>
             (allowed <==> asked))
  {
    StoredList(table, requested, before, after);
    var stored := Run(table, requested, before + [Snapshot(false)] + after).stored.value;
    AllowedExactly(required, stored);
    forall p ensures p in multiset(stored) <==> p in stored {
    }
    forall p ensures p in multiset(Existing(table, requested)) <==> p in Existing(table, requested) {
    }
  }

  // ----- the objects -----

  /** A JavaScript array. */
  class List {
    var items: seq<Privilege>

    constructor ()
      ensures items == []
    {
      items := [];
    }

    method Push(p: Privilege)
      modifies this
      ensures items == old(items) + [p]
    {
      items := items + [p];
    }
  }

  class UserRole {
    var userPrivileges: List

    constructor (userPrivileges: List)
      ensures this.userPrivileges == userPrivileges
    {
      this.userPrivileges := userPrivileges;
    }
  }

  /** One activation of assignPrivilege. The role under way holds the very array the callbacks push onto. */
  class AssignPrivilege {
    const table: Table
    const privilegeIds: seq<string>
    const availablePrivs: List
    var running: bool
    var pending: set<nat>
    var role: UserRole?
    var stored: Option<seq<Privilege>>

    ghost predicate Valid()
      reads this, role
    {
      && (!running ==> role == null)
      && (role != null ==> role.userPrivileges == availablePrivs)
    }

    ghost function Current(): Call
      reads this, availablePrivs
    {
      if running then Running(pending, availablePrivs.items, role != null, stored) else Waiting
    }

    constructor (table: Table, privilegeIds: seq<string>)
      ensures Valid() && fresh(availablePrivs) && Current() == Waiting
      ensures this.table == table && this.privilegeIds == privilegeIds
    {
      this.table, this.privilegeIds := table, privilegeIds;
      running, pending, role, stored := false, {}, null, None;
      availablePrivs := new List();
    }

    method OnRole(found: UserRole?)
      requires Valid() && !running
      modifies this, availablePrivs, found
      ensures Valid() && Current() == Apply(table, privilegeIds, old(Current()), RoleAnswered(found != null))
    {
      running, stored := true, None;
      availablePrivs.items := [];
      pending := {};
      for i := 0 to |privilegeIds|
        invariant pending == Indices(i)
        invariant running && role == null && stored == None && availablePrivs.items == []
      {
        pending := pending + {i};
      }
      if found != null {
        found.userPrivileges := availablePrivs;
        role := found;
      }
    }

    method OnLookup(i: nat)
      requires Valid() && running && i in pending && i < |privilegeIds|
      modifies this, availablePrivs
      ensures Valid() && Current() == Apply(table, privilegeIds, old(Current()), LookupAnswered(i))
    {
      pending := pending - {i};
      if privilegeIds[i] in table {
        availablePrivs.Push(table[privilegeIds[i]]);
      }
    }

    /** The save reads the list through the role. */
    method OnSnapshot(fails: bool)
      requires Valid() && role != null
      modifies this
      ensures Valid() && Current() == Apply(table, privilegeIds, old(Current()), Snapshot(fails))
    {
      stored := if fails then None else Some(role.userPrivileges.items);
      role := null;
    }
  }
}

/** FleetService and VehicleService over the tables they share. */
module Fleets {
  import opened Wrappers
  import opened Sequences

  datatype Status = ACTIVE | INACTIVE | MAINTENANCE

  datatype Fleet = Fleet(id: string, name: string, managerId: string)

  datatype Vehicle = Vehicle(id: string, vin: string, status: Status, fleet: Option<string>)

  datatype Db = Db(users: set<string>, fleets: seq<Fleet>, vehicles: seq<Vehicle>)

  // ----- writes, as the store takes or refuses them -----

  /** SaveVehicle inserts the row when there is none with its id; a vehicle loaded without its fleet leaves the
    * fleet column alone. RemoveVehicle: whether telemetry refers to the vehicle is for other tables to say. */
  datatype Write =
    | InsertFleet(fleet: Fleet)
    | RemoveFleet(id: string)
    | SaveVehicle(vehicle: Vehicle, setsFleet: bool)
    | RemoveVehicle(id: string, reported: bool)

  predicate HasFleet(db: Db, id: string) {
    exists f :: f in db.fleets && f.id == id
  }

  function Find(rows: seq<Vehicle>, id: string): Option<Vehicle> {
    if rows == [] then None
    else if rows[0].id == id then Some(rows[0])
    else Find(rows[1..], id)
  }

  /** The table with this row in place of the one with its id, or at the end. */
  function Put(rows: seq<Vehicle>, v: Vehicle): seq<Vehicle> {
    if rows == [] then [v]
    else if rows[0].id == v.id then [v] + rows[1..]
    else [rows[0]] + Put(rows[1..], v)
  }

  predicate NameTaken(db: Db, name: string) {
    exists f :: f in db.fleets && f.name == name
  }

  /** Saving writes the first row with the id and no other, or adds one at the end. */
  lemma {:induction false} PutIs(before: seq<Vehicle>, v: Vehicle, was: Vehicle, after: seq<Vehicle>)
    requires was.id == v.id && forall u :: u in before ==> u.id != v.id
    ensures Put(before, v) == before + [v]
    ensures Put(before + [was] + after, v) == before + [v] + after
  {
    var all := before + [was] + after;
    if before == [] {
      assert all[0] == was && all[1..] == after;
    } else {
      PutIs(before[1..], v, was, after);
      assert before[0] in before && all[0] == before[0] && all[1..] == before[1..] + [was] + after;
    }
  }

  lemma PutAt(rows: seq<Vehicle>, v: Vehicle, i: nat)
    requires i < |rows| && rows[i].id == v.id && forall j :: 0 <= j < i ==> rows[j].id != v.id
    ensures Put(rows, v) == rows[i := v]
  {
    PutIs(rows[..i], v, rows[i], rows[i + 1..]);
    assert rows == rows[..i] + [rows[i]] + rows[i + 1..] && rows[i := v] == rows[..i] + [v] + rows[i + 1..];
  }

  /** Another vehicle has the number. */
  predicate VinTaken(db: Db, id: string, vin: string) {
    exists u :: u in db.vehicles && u.id != id && u.vin == vin
  }

  /** A unique, primary or foreign key that the write would break. */
  predicate Refused(db: Db, w: Write) {
    match w
    case InsertFleet(f) =>
      HasFleet(db, f.id) || f.managerId !in db.users || NameTaken(db, f.name)
    case RemoveFleet(id) => exists v :: v in db.vehicles && v.fleet == Some(id)
    case SaveVehicle(v, setsFleet) =>
      VinTaken(db, v.id, v.vin) || (setsFleet && v.fleet.Some? && !HasFleet(db, v.fleet.value))
    case RemoveVehicle(_, reported) => reported
  }

  function Row(db: Db, v: Vehicle, setsFleet: bool): Vehicle {
    if setsFleet then v
    else
      match Find(db.vehicles, v.id)
      case Some(was) => v.(fleet := was.fleet)
      case None => v.(fleet := None)
  }

  function Perform(db: Db, w: Write): Db {
    if Refused(db, w) then db
    else
      match w
      case InsertFleet(f) => db.(fleets := db.fleets + [f])
      case RemoveFleet(id) => db.(fleets := Filter((f: Fleet) => f.id != id, db.fleets))
      case SaveVehicle(v, setsFleet) => db.(vehicles := Put(db.vehicles, Row(db, v, setsFleet)))
      case RemoveVehicle(id, _) => db.(vehicles := Filter((v: Vehicle) => v.id != id, db.vehicles))
  }

  function Run(users: set<string>, writes: seq<Write>): Db {
    if writes == [] then Db(users, [], [])
    else Perform(Run(users, writes[..|writes| - 1]), writes[|writes| - 1])
  }

  // ----- what the tables keep -----

  ghost predicate NoDangling(db: Db) {
    forall v :: v in db.vehicles && v.fleet.Some? ==> HasFleet(db, v.fleet.value)
  }

  predicate FleetsDiffer(f: Fleet, g: Fleet) {
    f.id != g.id && f.name != g.name
  }

  predicate VehiclesDiffer(u: Vehicle, v: Vehicle) {
    u.id != v.id && u.vin != v.vin
  }

  ghost predicate UniqueFleets(fleets: seq<Fleet>) {
    Pairwise(FleetsDiffer, fleets)
  }

  ghost predicate UniqueVehicles(rows: seq<Vehicle>) {
    Pairwise(VehiclesDiffer, rows)
  }

  ghost predicate Sane(db: Db) {
    NoDangling(db) && UniqueFleets(db.fleets) && UniqueVehicles(db.vehicles)
  }

  lemma {:induction false} FindIs(rows: seq<Vehicle>, id: string)
    ensures Find(rows, id).Some? <==> exists v :: v in rows && v.id == id
    ensures Find(rows, id).Some? ==> Find(rows, id).value in rows && Find(rows, id).value.id == id
  {
    if rows != [] {
      FindIs(rows[1..], id);
    }
  }

  lemma {:induction false} PutFinds(rows: seq<Vehicle>, v: Vehicle)
    ensures Find(Put(rows, v), v.id) == Some(v)
  {
    if rows != [] {
      PutFinds(rows[1..], v);
    }
  }

  lemma {:induction false} PutMembers(rows: seq<Vehicle>, v: Vehicle)
    requires UniqueVehicles(rows)
    ensures forall u :: u in Put(rows, v) <==> u == v || (u in rows && u.id != v.id)
  {
    if rows != [] {
      PutMembers(rows[1..], v);
      assert forall u :: u in rows <==> u == rows[0] || u in rows[1..];
      assert forall u :: u in rows[1..] ==> u.id != rows[0].id;
    }
  }

  lemma {:induction false} PutUnique(rows: seq<Vehicle>, v: Vehicle)
    requires UniqueVehicles(rows) && forall u :: u in rows && u.id != v.id ==> u.vin != v.vin
    ensures UniqueVehicles(Put(rows, v))
  {
    if rows != [] {
      var rest := rows[1..];
      assert rows == [rows[0]] + rest;
      PairwiseCons(VehiclesDiffer, rows[0], rest);
      if rows[0].id == v.id {
        PairwiseCons(VehiclesDiffer, v, rest);
      } else {
        PutUnique(rest, v);
        PutMembers(rest, v);
        PairwiseCons(VehiclesDiffer, rows[0], Put(rest, v));
      }
    }
  }

  lemma SaveKeeps(db: Db, v: Vehicle, setsFleet: bool)
    requires Sane(db) && !Refused(db, SaveVehicle(v, setsFleet))
    ensures Sane(Perform(db, SaveVehicle(v, setsFleet)))
  {
    var row := Row(db, v, setsFleet);
    FindIs(db.vehicles, v.id);
    PutUnique(db.vehicles, row);
    PutMembers(db.vehicles, row);
    var db' := Perform(db, SaveVehicle(v, setsFleet));
    assert forall id :: HasFleet(db', id) <==> HasFleet(db, id);
  }

  /** Removing takes the rows with the id and keeps all others; from a sane table, exactly one, in its place. */
  lemma RemoveFleetIs(db: Db, id: string)
    requires !Refused(db, RemoveFleet(id))
    ensures var db' := Perform(db, RemoveFleet(id));
      && db'.users == db.users && db'.vehicles == db.vehicles
      && (forall f :: f in db'.fleets <==> f in db.fleets && f.id != id)
      && (UniqueFleets(db.fleets) && HasFleet(db, id) ==>
            exists i :: 0 <= i < |db.fleets| && db.fleets[i].id == id
              && db'.fleets == db.fleets[..i] + db.fleets[i + 1..])
  {
    var keep := (f: Fleet) => f.id != id;
    forall f ensures f in Filter(keep, db.fleets) <==> f in db.fleets && f.id != id {
      FilterMembers(keep, db.fleets, f);
    }
    if UniqueFleets(db.fleets) && HasFleet(db, id) {
      var i :| 0 <= i < |db.fleets| && db.fleets[i].id == id;
      forall j | 0 <= j < |db.fleets| && j != i ensures keep(db.fleets[j]) {
        assert if j < i then FleetsDiffer(db.fleets[j], db.fleets[i]) else FleetsDiffer(db.fleets[i], db.fleets[j]);
      }
      TakenOut(keep, db.fleets, i);
    }
  }

  lemma RemoveVehicleIs(db: Db, id: string)
    ensures var db' := Perform(db, RemoveVehicle(id, false));
      && db'.users == db.users && db'.fleets == db.fleets
      && (forall v :: v in db'.vehicles <==> v in db.vehicles && v.id != id)
      && (UniqueVehicles(db.vehicles) && (exists v :: v in db.vehicles && v.id == id) ==>
            exists i :: 0 <= i < |db.vehicles| && db.vehicles[i].id == id
              && db'.vehicles == db.vehicles[..i] + db.vehicles[i + 1..])
  {
    var keep := (v: Vehicle) => v.id != id;
    forall v ensures v in Filter(keep, db.vehicles) <==> v in db.vehicles && v.id != id {
      FilterMembers(keep, db.vehicles, v);
    }
    if UniqueVehicles(db.vehicles) && exists v :: v in db.vehicles && v.id == id {
      var i :| 0 <= i < |db.vehicles| && db.vehicles[i].id == id;
      forall j | 0 <= j < |db.vehicles| && j != i ensures keep(db.vehicles[j]) {
        assert if j < i then VehiclesDiffer(db.vehicles[j], db.vehicles[i])
               else VehiclesDiffer(db.vehicles[i], db.vehicles[j]);
      }
      TakenOut(keep, db.vehicles, i);
    }
  }

  lemma RemoveFleetKeeps(db: Db, id: string)
    requires Sane(db) && !Refused(db, RemoveFleet(id))
    ensures Sane(Perform(db, RemoveFleet(id)))
  {
    var keep := (f: Fleet) => f.id != id;
    FilterPairwise(FleetsDiffer, keep, db.fleets);
    var db' := Perform(db, RemoveFleet(id));
    forall v | v in db'.vehicles && v.fleet.Some? ensures HasFleet(db', v.fleet.value) {
      var f :| f in db.fleets && f.id == v.fleet.value;
      FilterMembers(keep, db.fleets, f);
      assert f in db'.fleets;
    }
  }

  lemma PerformKeeps(db: Db, w: Write)
    requires Sane(db)
    ensures Sane(Perform(db, w))
  {
    if !Refused(db, w) {
      match w
      case InsertFleet(f) =>
        forall id | HasFleet(db, id) ensures HasFleet(Perform(db, w), id) {
          var g :| g in db.fleets && g.id == id;
          assert g in Perform(db, w).fleets;
        }
      case RemoveFleet(id) =>
        RemoveFleetKeeps(db, id);
      case SaveVehicle(v, setsFleet) =>
        SaveKeeps(db, v, setsFleet);
      case RemoveVehicle(id, _) =>
        var keep := (v: Vehicle) => v.id != id;
        FilterPairwise(VehiclesDiffer, keep, db.vehicles);
        forall v | v in Perform(db, w).vehicles ensures v in db.vehicles {
          FilterMembers(keep, db.vehicles, v);
        }
        assert forall id :: HasFleet(Perform(db, w), id) <==> HasFleet(db, id);
    }
  }

  /** Whatever writes concurrent calls make, no vehicle refers to a missing fleet. */
  lemma {:induction false} EveryRunSane(users: set<string>, writes: seq<Write>)
    ensures Sane(Run(users, writes))
  {
    if writes != [] {
      EveryRunSane(users, writes[..|writes| - 1]);
      PerformKeeps(Run(users, writes[..|writes| - 1]), writes[|writes| - 1]);
    }
  }

  // ----- counting vehicles -----

  function CountOf(rows: seq<Vehicle>, p: Vehicle -> bool): nat {
    |Filter(p, rows)|
  }

  function In(fleet: Option<string>, p: Vehicle -> bool): Vehicle -> bool {
    (v: Vehicle) => v.fleet == fleet && p(v)
  }

  /** Counted are the places of the table that hold such a vehicle. */
  lemma CountIs(rows: seq<Vehicle>, fleet: Option<string>, p: Vehicle -> bool)
    ensures CountOf(rows, p) == |set i: nat | i < |rows| && p(rows[i])|
    ensures CountOf(rows, In(fleet, p)) == |set i: nat | i < |rows| && rows[i].fleet == fleet && p(rows[i])|
  {
    FilterSize(p, rows);
    assert Places(p, rows) == set i: nat | i < |rows| && p(rows[i]);
    FilterSize(In(fleet, p), rows);
    assert Places(In(fleet, p), rows) == set i: nat | i < |rows| && rows[i].fleet == fleet && p(rows[i]);
  }

  function SumOver(fleets: seq<Fleet>, rows: seq<Vehicle>, p: Vehicle -> bool): nat {
    if fleets == [] then 0
    else CountOf(rows, In(Some(fleets[0].id), p)) + SumOver(fleets[1..], rows, p)
  }

  function Bit(b: bool): nat {
    if b then 1 else 0
  }

  /** One more vehicle counts in its own fleet only. */
  lemma {:induction false} SumFirst(fleets: seq<Fleet>, rows: seq<Vehicle>, p: Vehicle -> bool)
    requires rows != [] && UniqueFleets(fleets)
    ensures var v := rows[0];
      SumOver(fleets, rows, p) == SumOver(fleets, rows[1..], p)
        + Bit(p(v) && exists f :: f in fleets && v.fleet == Some(f.id))
  {
    if fleets != [] {
      SumFirst(fleets[1..], rows, p);
      var v := rows[0];
      assert forall f :: f in fleets <==> f == fleets[0] || f in fleets[1..];
      assert forall f :: f in fleets[1..] ==> f.id != fleets[0].id;
      if v.fleet == Some(fleets[0].id) {
        assert !exists f :: f in fleets[1..] && v.fleet == Some(f.id);
      }
    }
  }

  lemma {:induction false} SumNone(fleets: seq<Fleet>, p: Vehicle -> bool)
    ensures SumOver(fleets, [], p) == 0
  {
    if fleets != [] {
      SumNone(fleets[1..], p);
    }
  }

  lemma {:induction false} Partition(fleets: seq<Fleet>, rows: seq<Vehicle>, p: Vehicle -> bool)
    requires UniqueFleets(fleets)
    requires forall v :: v in rows && v.fleet.Some? ==> exists f :: f in fleets && f.id == v.fleet.value
    ensures SumOver(fleets, rows, p) + CountOf(rows, In(None, p)) == CountOf(rows, p)
  {
    if rows == [] {
      SumNone(fleets, p);
    } else {
      Partition(fleets, rows[1..], p);
      SumFirst(fleets, rows, p);
      assert rows[0] in rows;
    }
  }

  /** In every run: the fleets' counts and the unassigned vehicles add up to all the vehicles, for the whole
    * table and for any kind of vehicle, such as the active ones. */
  lemma Conservation(users: set<string>, writes: seq<Write>, p: Vehicle -> bool)
    ensures var db := Run(users, writes);
      SumOver(db.fleets, db.vehicles, p) + CountOf(db.vehicles, In(None, p)) == CountOf(db.vehicles, p)
  {
    var db := Run(users, writes);
    EveryRunSane(users, writes);
    forall v | v in db.vehicles && v.fleet.Some? ensures exists f :: f in db.fleets && f.id == v.fleet.value {
      assert HasFleet(db, v.fleet.value);
    }
    Partition(db.fleets, db.vehicles, p);
  }

  /** Saving a row moves its unit, and no other, from where it counted to where it counts. */
  lemma {:induction false} PutMoves(rows: seq<Vehicle>, v: Vehicle, p: Vehicle -> bool)
    ensures var was := Find(rows, v.id);
      CountOf(Put(rows, v), p) + Bit(was.Some? && p(was.value)) == CountOf(rows, p) + Bit(p(v))
  {
    if rows != [] {
      PutMoves(rows[1..], v, p);
      assert Put(rows, v)[1..] == if rows[0].id == v.id then rows[1..] else Put(rows[1..], v);
    } else {
      assert [v][1..] == [];
    }
  }

  function Any(): Vehicle -> bool {
    v => true
  }

  function Total(db: Db, fleetId: string): nat {
    CountOf(db.vehicles, In(Some(fleetId), Any()))
  }

  /** A reassignment takes one unit from the vehicle's old fleet, gives one to the new, and touches no other. */
  lemma ReassignMovesOne(db: Db, v: Vehicle, to: string, f: string)
    requires Find(db.vehicles, v.id) == Some(v)
    requires !Refused(db, SaveVehicle(v.(fleet := Some(to)), true))
    ensures var db' := Perform(db, SaveVehicle(v.(fleet := Some(to)), true));
      && Total(db', f) + Bit(v.fleet == Some(f)) == Total(db, f) + Bit(f == to)
      && CountOf(db'.vehicles, In(None, Any())) + Bit(v.fleet == None) == CountOf(db.vehicles, In(None, Any()))
  {
    PutMoves(db.vehicles, v.(fleet := Some(to)), In(Some(f), Any()));
    PutMoves(db.vehicles, v.(fleet := Some(to)), In(None, Any()));
  }

  /** The store deletes a fleet exactly when its summary counts no vehicle. */
  lemma RefusedWhenCounted(db: Db, id: string)
    ensures Refused(db, RemoveFleet(id)) <==> Total(db, id) > 0
  {
    var p := In(Some(id), Any());
    forall v ensures v in Filter(p, db.vehicles) <==> v in db.vehicles && v.fleet == Some(id) {
      FilterMembers(p, db.vehicles, v);
    }
    if Total(db, id) > 0 {
      assert Filter(p, db.vehicles)[0] in Filter(p, db.vehicles);
    }
  }

  function Active(): Vehicle -> bool {
    (v: Vehicle) => v.status == ACTIVE
  }

  function Inactive(): Vehicle -> bool {
    (v: Vehicle) => v.status != ACTIVE
  }

  lemma {:induction false} CountSplit(rows: seq<Vehicle>, fleet: Option<string>)
    ensures CountOf(rows, In(fleet, Any())) == CountOf(rows, In(fleet, Active())) + CountOf(rows, In(fleet, Inactive()))
  {
    if rows != [] {
      CountSplit(rows[1..], fleet);
    }
  }

  /** The first row with the vehicle's id holds it now; nothing else changed. */
  ghost predicate WritesOne(db: Db, db': Db, v: Vehicle) {
    && db'.users == db.users && db'.fleets == db.fleets
    && exists i :: 0 <= i < |db.vehicles| && db.vehicles[i].id == v.id && db'.vehicles == db.vehicles[i := v]
  }

  lemma {:induction false} FirstAt(rows: seq<Vehicle>, id: string) returns (i: nat)
    requires Find(rows, id).Some?
    ensures i < |rows| && rows[i].id == id && rows[i] == Find(rows, id).value
    ensures forall j :: 0 <= j < i ==> rows[j].id != id
  {
    if rows[0].id == id {
      i := 0;
    } else {
      var k := FirstAt(rows[1..], id);
      i := k + 1;
    }
  }

  lemma SaveWritesOne(db: Db, v: Vehicle, setsFleet: bool)
    requires !Refused(db, SaveVehicle(v, setsFleet)) && Find(db.vehicles, v.id).Some? && v == Row(db, v, setsFleet)
    ensures WritesOne(db, Perform(db, SaveVehicle(v, setsFleet)), v)
  {
    var i := FirstAt(db.vehicles, v.id);
    PutAt(db.vehicles, v, i);
  }

  lemma FleetCounts(rows: seq<Vehicle>, f: string)
    ensures CountOf(rows, In(Some(f), Any())) == |set i: nat | i < |rows| && rows[i].fleet == Some(f)|
    ensures CountOf(rows, In(Some(f), Active())) ==
      |set i: nat | i < |rows| && rows[i].fleet == Some(f) && rows[i].status == ACTIVE|
    ensures CountOf(rows, In(Some(f), Inactive())) ==
      |set i: nat | i < |rows| && rows[i].fleet == Some(f) && rows[i].status != ACTIVE|
  {
    FilterSize(In(Some(f), Any()), rows);
    FilterSize(In(Some(f), Active()), rows);
    FilterSize(In(Some(f), Inactive()), rows);
    assert Places(In(Some(f), Any()), rows) == set i: nat | i < |rows| && rows[i].fleet == Some(f);
    assert Places(In(Some(f), Active()), rows) ==
      set i: nat | i < |rows| && rows[i].fleet == Some(f) && rows[i].status == ACTIVE;
    assert Places(In(Some(f), Inactive()), rows) ==
      set i: nat | i < |rows| && rows[i].fleet == Some(f) && rows[i].status != ACTIVE;
  }

  // ----- the services -----

  datatype Reply<T> = Done(value: T) | NotFound(what: string) | StoreRefused

  datatype Summary = Summary(fleetId: string, totalVehicles: int, activeVehicles: int, inactiveVehicles: int)

  class Store {
    var db: Db

    constructor (users: set<string>)
      ensures db == Run(users, [])
    {
      db := Db(users, [], []);
    }

    method Write(w: Write) returns (ok: bool)
      modifies this
      ensures ok == !Refused(old(db), w) && db == Perform(old(db), w)
    {
      ok := !Refused(db, w);
      db := Perform(db, w);
    }
  }

  class FleetService {
    const store: Store

    constructor (store: Store)
      ensures this.store == store
    {
      this.store := store;
    }

    method CreateFleet(name: string, managerId: string, id: string) returns (r: Reply<Fleet>)
      modifies store
      ensures managerId !in old(store.db).users <==> r.NotFound?
      ensures r.StoreRefused? <==> managerId in old(store.db).users
                                   && exists f :: f in old(store.db).fleets && (f.id == id || f.name == name)
      ensures store.db.users == old(store.db).users && store.db.vehicles == old(store.db).vehicles
      ensures store.db == if r.Done? then Perform(old(store.db), InsertFleet(Fleet(id, name, managerId)))
                          else old(store.db)
      ensures r.Done? ==> r.value == Fleet(id, name, managerId) && store.db.fleets == old(store.db.fleets) + [r.value]
    {
      if managerId !in store.db.users {
        return NotFound("Manager not found.");
      }
      var fleet := Fleet(id, name, managerId);
      var ok := store.Write(InsertFleet(fleet));
      r := if ok then Done(fleet) else StoreRefused;
    }

    /** Refused while the fleet has vehicles. */
    method DeleteFleet(fleetId: string) returns (r: Reply<()>)
      modifies store
      ensures r.NotFound? <==> forall f :: f in old(store.db).fleets ==> f.id != fleetId
      ensures r.StoreRefused? <==> !r.NotFound? && exists v :: v in old(store.db).vehicles && v.fleet == Some(fleetId)
      ensures r.Done? ==> Total(old(store.db), fleetId) == 0
      ensures r.Done? ==>
        && (forall f :: f in store.db.fleets <==> f in old(store.db).fleets && f.id != fleetId)
        && store.db.users == old(store.db).users
        && (Sane(old(store.db)) ==>
              exists i :: 0 <= i < |old(store.db).fleets| && old(store.db).fleets[i].id == fleetId
                && store.db.fleets == old(store.db).fleets[..i] + old(store.db).fleets[i + 1..])
      ensures r.Done? ==> !HasFleet(store.db, fleetId) && store.db.vehicles == old(store.db.vehicles)
      ensures store.db == if r.Done? then Perform(old(store.db), RemoveFleet(fleetId)) else old(store.db)
    {
      if !HasFleet(store.db, fleetId) {
        return NotFound("Fleet");
      }
      RefusedWhenCounted(store.db, fleetId);
      if !Refused(store.db, RemoveFleet(fleetId)) {
        RemoveFleetIs(store.db, fleetId);
      }
      var ok := store.Write(RemoveFleet(fleetId));
      r := if ok then Done(()) else StoreRefused;
    }

    /** The fleet is looked up first. On tables that keep their constraints the store has nothing to refuse. */
    method AssignVehicleToFleet(fleetId: string, vehicleId: string) returns (r: Reply<Vehicle>)
      modifies store
      ensures r == NotFound("Fleet") <==> forall f :: f in old(store.db).fleets ==> f.id != fleetId
      ensures r == NotFound("Vehicle") <==>
        r != NotFound("Fleet") && forall v :: v in old(store.db).vehicles ==> v.id != vehicleId
      ensures r.NotFound? ==> r.what == "Fleet" || r.what == "Vehicle"
      ensures Sane(old(store.db)) ==> !r.StoreRefused?
      ensures r.Done? ==>
        && Find(old(store.db.vehicles), vehicleId).Some?
        && var v := Find(old(store.db.vehicles), vehicleId).value;
        && r.value == v.(fleet := Some(fleetId))
        && store.db == Perform(old(store.db), SaveVehicle(r.value, true))
        && WritesOne(old(store.db), store.db, r.value)
        && forall f :: Total(store.db, f) + Bit(v.fleet == Some(f)) == Total(old(store.db), f) + Bit(f == fleetId)
      ensures !r.Done? ==> store.db == old(store.db)
    {
      if !HasFleet(store.db, fleetId) {
        return NotFound("Fleet");
      }
      FindIs(store.db.vehicles, vehicleId);
      var found := Find(store.db.vehicles, vehicleId);
      if found.None? {
        return NotFound("Vehicle");
      }
      var vehicle := found.value.(fleet := Some(fleetId));
      ghost var before := store.db;
      var ok := store.Write(SaveVehicle(vehicle, true));
      if !ok {
        return StoreRefused;
      }
      SaveWritesOne(before, vehicle, true);
      forall f ensures Total(store.db, f) + Bit(found.value.fleet == Some(f)) == Total(before, f) + Bit(f == fleetId) {
        ReassignMovesOne(before, found.value, fleetId, f);
      }
      r := Done(vehicle);
    }

    /** Vehicles under maintenance count as inactive. */
    method GetFleetSummary(fleetId: string) returns (r: Reply<Summary>)
      ensures r.NotFound? <==> forall f :: f in store.db.fleets ==> f.id != fleetId
      ensures r.Done? <==> !r.NotFound?
      ensures r.Done? ==>
        var vs := store.db.vehicles;
        && r.value.fleetId == fleetId && r.value.totalVehicles == Total(store.db, fleetId)
        && r.value.totalVehicles == |set i: nat | i < |vs| && vs[i].fleet == Some(fleetId)|
        && r.value.activeVehicles == |set i: nat | i < |vs| && vs[i].fleet == Some(fleetId) && vs[i].status == ACTIVE|
        && r.value.inactiveVehicles == |set i: nat | i < |vs| && vs[i].fleet == Some(fleetId) && vs[i].status != ACTIVE|
    {
      if !HasFleet(store.db, fleetId) {
        return NotFound("Fleet");
      }
      var mine := In(Some(fleetId), Any());
      var vehicles := Filter(mine, store.db.vehicles);
      var active := |Filter(Active(), vehicles)|;
      FilterTwice(mine, Active(), In(Some(fleetId), Active()), store.db.vehicles);
      CountSplit(store.db.vehicles, Some(fleetId));
      FleetCounts(store.db.vehicles, fleetId);
      r := Done(Summary(fleetId, |vehicles|, active, |vehicles| - active));
    }
  }

  class VehicleService {
    const store: Store

    constructor (store: Store)
      ensures this.store == store
    {
      this.store := store;
    }

    /** The fleetId of the request names no column of the entity: the vehicle starts without a fleet. */
    method CreateVehicle(vin: string, status: Status, fleetId: string, id: string) returns (r: Reply<Vehicle>)
      requires Find(store.db.vehicles, id).None?
      modifies store
      ensures r.StoreRefused? <==> exists u :: u in old(store.db).vehicles && u.vin == vin
      ensures store.db == old(store.db).(vehicles := old(store.db).vehicles + if r.Done? then [r.value] else [])
      ensures !r.NotFound?
      ensures r.Done? ==> r.value == Vehicle(id, vin, status, None)
      ensures forall f :: Total(store.db, f) == Total(old(store.db), f)
      ensures store.db == Perform(old(store.db), SaveVehicle(Vehicle(id, vin, status, None), true))
    {
      var vehicle := Vehicle(id, vin, status, None);
      ghost var before := store.db;
      FindIs(before.vehicles, id);
      PutIs(before.vehicles, vehicle, vehicle, []);
      var ok := store.Write(SaveVehicle(vehicle, true));
      if !ok {
        return StoreRefused;
      }
      forall f ensures Total(store.db, f) == Total(before, f) {
        PutMoves(before.vehicles, vehicle, In(Some(f), Any()));
      }
      r := Done(vehicle);
    }

    /** Leaves the vehicle in its fleet. */
    method UpdateVehicle(id: string, vin: Option<string>, status: Option<Status>) returns (r: Reply<Vehicle>)
      modifies store
      ensures r.NotFound? <==> Find(old(store.db.vehicles), id).None?
      ensures r.Done? ==>
        && var v := Find(old(store.db.vehicles), id).value;
        && r.value == Vehicle(id, if vin.Some? then vin.value else v.vin,
                              if status.Some? then status.value else v.status, v.fleet)
        && Find(store.db.vehicles, id) == Some(r.value)
        && store.db == Perform(old(store.db), SaveVehicle(r.value, false))
        && WritesOne(old(store.db), store.db, r.value)
        && forall f :: Total(store.db, f) == Total(old(store.db), f)
      ensures Sane(old(store.db)) && !r.NotFound? ==>
        (r.StoreRefused? <==> vin.Some? && exists u :: u in old(store.db).vehicles && u.id != id && u.vin == vin.value)
      ensures !r.Done? ==> store.db == old(store.db)
    {
      var found := Find(store.db.vehicles, id);
      if found.None? {
        return NotFound("Vehicle");
      }
      FindIs(store.db.vehicles, id);
      var vehicle := found.value;
      if vin.Some? {
        vehicle := vehicle.(vin := vin.value);
      }
      if status.Some? {
        vehicle := vehicle.(status := status.value);
      }
      ghost var before := store.db;
      var ok := store.Write(SaveVehicle(vehicle, false));
      if !ok {
        return StoreRefused;
      }
      forall f ensures Total(store.db, f) == Total(before, f) {
        PutMoves(before.vehicles, Row(before, vehicle, false), In(Some(f), Any()));
      }
      PutFinds(before.vehicles, vehicle);
      SaveWritesOne(before, vehicle, false);
      r := Done(vehicle);
    }

    method DeleteVehicle(id: string, reported: bool) returns (r: Reply<()>)
      modifies store
      ensures r.NotFound? <==> Find(old(store.db.vehicles), id).None?
      ensures r.Done? <==> Find(old(store.db.vehicles), id).Some? && !reported
      ensures r.Done? ==>
        && (forall v :: v in store.db.vehicles <==> v in old(store.db).vehicles && v.id != id)
        && store.db.users == old(store.db).users && store.db.fleets == old(store.db).fleets
        && (Sane(old(store.db)) ==>
              exists i :: 0 <= i < |old(store.db).vehicles| && old(store.db).vehicles[i].id == id
                && store.db.vehicles == old(store.db).vehicles[..i] + old(store.db).vehicles[i + 1..])
      ensures store.db == if r.Done? then Perform(old(store.db), RemoveVehicle(id, false)) else old(store.db)
    {
      var found := Find(store.db.vehicles, id);
      if found.None? {
        return NotFound("Vehicle");
      }
      FindIs(store.db.vehicles, id);
      RemoveVehicleIs(store.db, id);
      var ok := store.Write(RemoveVehicle(id, reported));
      r := if ok then Done(()) else StoreRefused;
    }
  }
}

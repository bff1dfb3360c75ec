/** TelemetryGateway: the per-client subscription index and the socket.io rooms. */
module Gateway {
  import opened Wrappers

  type Client = string

  /** A number as String prints it. */
  type Numeral = s: string | s != "" witness "0"

  /** The `fleetId` of a message body, as JSON gives it: nothing checks its type. An array or object is known
    * by its identity, which no other message's has, and printing it may throw. (A body that is null throws
    * before anything changes, and is no event.) */
  datatype Id =
    | Missing
    | Null
    | Text(s: string)
    | Bool(b: bool)
    | Number(decimal: Numeral)
    | Object(ref: nat, printed: Option<string>)

  /** What `if (fleetId)` says. */
  predicate Truthy(id: Id) {
    match id
    case Missing => false
    case Null => false
    case Text(s) => s != ""
    case Bool(b) => b
    case Number(decimal) => decimal != "0"
    case Object(_, _) => true
  }

  /** The id inside a template string. */
  function Printed(id: Id): Option<string> {
    match id
    case Missing => Some("undefined")
    case Null => Some("null")
    case Text(s) => Some(s)
    case Bool(b) => Some(if b then "true" else "false")
    case Number(decimal) => Some(decimal)
    case Object(_, printed) => printed
  }

  /** Which ids are falsy, and what each prints. */
  lemma IdsAre(id: Id)
    ensures !Truthy(id) <==> id in {Missing, Null, Text(""), Bool(false), Number("0")}
    ensures Printed(Missing) == Some("undefined") && Printed(Null) == Some("null")
    ensures Printed(Bool(true)) == Some("true") && Printed(Bool(false)) == Some("false")
    ensures id.Text? ==> Printed(id) == Some(id.s)
    ensures id.Number? ==> Printed(id) == Some(id.decimal)
    ensures id.Object? ==> Printed(id) == id.printed
  {
  }

  datatype Event =
    | Connect(client: Client)
    | Disconnect(client: Client)
    | Subscribe(client: Client, fleetId: Id)
    | Unsubscribe(client: Client, fleetId: Id)

  /** rooms: the members of each room; socket.io itself empties them when a client disconnects. */
  datatype State = State(
    connected: set<Client>, subscriptions: map<Client, set<Id>>, rooms: map<string, set<Client>>)

  const EMPTY: State := State({}, map[], map[])

  function Room(fleet: string): string {
    "fleet:" + fleet
  }

  function Members(rooms: map<string, set<Client>>, room: string): set<Client> {
    if room in rooms then rooms[room] else {}
  }

  function Join(rooms: map<string, set<Client>>, room: string, c: Client): map<string, set<Client>> {
    rooms[room := Members(rooms, room) + {c}]
  }

  function Leave(rooms: map<string, set<Client>>, room: string, c: Client): map<string, set<Client>> {
    rooms[room := Members(rooms, room) - {c}]
  }

  function LeaveAll(rooms: map<string, set<Client>>, c: Client): map<string, set<Client>> {
    map room | room in rooms :: rooms[room] - {c}
  }

  function Subscribed(s: State, c: Client): set<Id> {
    if c in s.subscriptions then s.subscriptions[c] else {}
  }

  /** One event. Only a connected client's messages arrive. An id that cannot be printed throws after the
    * index has changed and before the room does. */
  function Apply(s: State, e: Event): State {
    match e
    case Connect(c) => s.(connected := s.connected + {c})
    case Disconnect(c) =>
      State(s.connected - {c}, s.subscriptions - {c}, LeaveAll(s.rooms, c))
    case Subscribe(c, id) =>
      if c !in s.connected || !Truthy(id) then s
      else
        s.(subscriptions := s.subscriptions[c := Subscribed(s, c) + {id}],
           rooms := if Printed(id).Some? then Join(s.rooms, Room(Printed(id).value), c) else s.rooms)
    case Unsubscribe(c, id) =>
      if c !in s.connected || c !in s.subscriptions then s
      else
        s.(subscriptions := s.subscriptions[c := s.subscriptions[c] - {id}],
           rooms := if Printed(id).Some? then Leave(s.rooms, Room(Printed(id).value), c) else s.rooms)
  }

  function Run(events: seq<Event>): State {
    if events == [] then EMPTY
    else Apply(Run(events[..|events| - 1]), events[|events| - 1])
  }

  /** A subscription with a falsy id leaves index and rooms as they were. */
  lemma FalsySubscription(s: State, c: Client)
    ensures forall id :: id in {Missing, Null, Text(""), Bool(false), Number("0")} ==> Apply(s, Subscribe(c, id)) == s
  {
  }

  // ----- what the events say -----

  ghost predicate OnlineAt(events: seq<Event>, i: nat, c: Client) {
    i < |events| && events[i] == Connect(c)
    && forall j :: i < j < |events| ==> events[j] != Disconnect(c)
  }

  /** The client connected and has not disconnected since. */
  ghost predicate Online(events: seq<Event>, c: Client) {
    exists i :: OnlineAt(events, i, c)
  }

  /** Event e takes the id from the client's wishes: its disconnect, or an unsubscription of that very id. */
  predicate Unwants(e: Event, c: Client, id: Id) {
    e == Disconnect(c) || e == Unsubscribe(c, id)
  }

  /** Event e takes the client out of the fleet's room: an unsubscription counts for what its id prints. */
  predicate Expels(e: Event, c: Client, fleet: string) {
    e == Disconnect(c) || (e.Unsubscribe? && e.client == c && Printed(e.fleetId) == Some(fleet))
  }

  /** An accepted subscription whose id prints the fleet. */
  predicate Enters(e: Event, c: Client, fleet: string) {
    e.Subscribe? && e.client == c && Truthy(e.fleetId) && Printed(e.fleetId) == Some(fleet)
  }

  ghost predicate WantedAt(events: seq<Event>, i: nat, c: Client, id: Id) {
    i < |events| && events[i] == Subscribe(c, id) && Truthy(id) && Online(events[..i], c)
    && forall j :: i < j < |events| ==> !Unwants(events[j], c, id)
  }

  /** Since it last connected, the client's latest word on the id was an accepted subscription. */
  ghost predicate Wanted(events: seq<Event>, c: Client, id: Id) {
    exists i :: WantedAt(events, i, c, id)
  }

  ghost predicate JoinedAt(events: seq<Event>, i: nat, c: Client, fleet: string) {
    i < |events| && Enters(events[i], c, fleet) && Online(events[..i], c)
    && forall j :: i < j < |events| ==> !Expels(events[j], c, fleet)
  }

  /** Since it last connected, the client's latest word whose id prints the fleet was an accepted
    * subscription. */
  ghost predicate Joined(events: seq<Event>, c: Client, fleet: string) {
    exists i :: JoinedAt(events, i, c, fleet)
  }

  // ----- one more event -----

  lemma OnlineNote(events: seq<Event>, e: Event, c: Client)
    ensures Online(events + [e], c) <==> e == Connect(c) || (e != Disconnect(c) && Online(events, c))
  {
    var events' := events + [e];
    forall i: nat | i < |events| ensures OnlineAt(events', i, c) <==> OnlineAt(events, i, c) && e != Disconnect(c) {
      assert forall j :: 0 <= j < |events| ==> events'[j] == events[j];
      assert events'[|events|] == e;
    }
    assert OnlineAt(events', |events|, c) <==> e == Connect(c);
  }

  lemma WantedNote(events: seq<Event>, e: Event, c: Client, id: Id)
    ensures Wanted(events + [e], c, id) <==>
      (e == Subscribe(c, id) && Truthy(id) && Online(events, c)) || (!Unwants(e, c, id) && Wanted(events, c, id))
  {
    var events' := events + [e];
    assert events'[..|events|] == events;
    forall i: nat | i < |events|
      ensures WantedAt(events', i, c, id) <==> WantedAt(events, i, c, id) && !Unwants(e, c, id)
    {
      assert events'[..i] == events[..i] && events'[|events|] == e;
      assert forall j :: 0 <= j < |events| ==> events'[j] == events[j];
    }
    assert WantedAt(events', |events|, c, id) <==> e == Subscribe(c, id) && Truthy(id) && Online(events, c);
  }

  lemma JoinedNote(events: seq<Event>, e: Event, c: Client, fleet: string)
    ensures Joined(events + [e], c, fleet) <==>
      (Enters(e, c, fleet) && Online(events, c)) || (!Expels(e, c, fleet) && Joined(events, c, fleet))
  {
    var events' := events + [e];
    assert events'[..|events|] == events;
    forall i: nat | i < |events|
      ensures JoinedAt(events', i, c, fleet) <==> JoinedAt(events, i, c, fleet) && !Expels(e, c, fleet)
    {
      assert events'[..i] == events[..i] && events'[|events|] == e;
      assert forall j :: 0 <= j < |events| ==> events'[j] == events[j];
    }
    assert JoinedAt(events', |events|, c, fleet) <==> Enters(e, c, fleet) && Online(events, c);
  }

  // ----- the invariant -----

  /** State and history agree on one client, one id and one fleet. */
  ghost predicate Agrees(s: State, events: seq<Event>, c: Client, id: Id, f: string) {
    && (c in s.connected <==> Online(events, c))
    && (c in s.subscriptions ==> c in s.connected)
    && (id in Subscribed(s, c) <==> Wanted(events, c, id))
    && (c in Members(s.rooms, Room(f)) <==> Joined(events, c, f))
    // a client without a set is in no room, so not leaving one is sound
    && (c !in s.subscriptions ==> c !in Members(s.rooms, Room(f)))
  }

  lemma RoomText()
    ensures Room("a") == "fleet:a"
  {
  }

  lemma RoomInjective(f: string, g: string)
    ensures Room(f) == Room(g) <==> f == g
  {
    assert Room(f)[6..] == f && Room(g)[6..] == g;
  }

  lemma AppendAgrees(s: State, events: seq<Event>, e: Event, c: Client, id: Id, f: string)
    requires Agrees(s, events, c, id, f)
    ensures Agrees(Apply(s, e), events + [e], c, id, f)
  {
    hide Online, Wanted, Joined, Truthy, Printed, Room;
    OnlineNote(events, e, c);
    WantedNote(events, e, c, id);
    JoinedNote(events, e, c, f);
    if (e.Subscribe? || e.Unsubscribe?) && Printed(e.fleetId).Some? {
      RoomInjective(f, Printed(e.fleetId).value);
    }
  }

  lemma {:induction false} RunAgrees(events: seq<Event>, c: Client, id: Id, f: string)
    ensures Agrees(Run(events), events, c, id, f)
  {
    if events != [] {
      var n := |events| - 1;
      RunAgrees(events[..n], c, id, f);
      AppendAgrees(Run(events[..n]), events[..n], events[n], c, id, f);
      assert events == events[..n] + [events[n]];
    }
  }

  // ----- what a broadcast reaches -----

  /** At every point of every run, whatever the ids in the messages, the room of a fleet holds exactly the
    * connected clients whose latest word that prints the fleet, since they connected, was an accepted
    * subscription. */
  lemma BroadcastReaches(events: seq<Event>, f: string)
    ensures forall c :: c in Members(Run(events).rooms, Room(f)) <==> Joined(events, c, f)
    ensures Members(Run(events).rooms, Room(f)) <= Run(events).connected
  {
    forall c ensures c in Members(Run(events).rooms, Room(f)) <==> Joined(events, c, f)
      ensures c in Members(Run(events).rooms, Room(f)) ==> c in Run(events).connected
    {
      RunAgrees(events, c, Missing, f);
    }
  }

  /** The room of the empty fleet id holds exactly the clients that joined it by an array or object that
    * prints nothing, such as `[]`, and have not left it since. */
  lemma EmptyRoom(events: seq<Event>)
    ensures forall c :: c in Members(Run(events).rooms, Room("")) <==>
      exists i: nat :: JoinedAt(events, i, c, "") && events[i].fleetId.Object?
  {
    BroadcastReaches(events, "");
    forall i: nat, c | JoinedAt(events, i, c, "") ensures events[i].fleetId.Object? {
    }
  }

  /** Such a run: a subscription with `[]`. */
  lemma EmptyRoomJoined()
    ensures "c" in Members(Run([Connect("c"), Subscribe("c", Object(0, Some("")))]).rooms, Room(""))
  {
    var events := [Connect("c"), Subscribe("c", Object(0, Some("")))];
    assert events[..1] == [Connect("c")] && events[..1][..0] == [];
    assert Run(events[..1]) == Apply(EMPTY, Connect("c"));
  }

  // ----- index and rooms -----

  /** The index holds an id that prints the fleet. */
  ghost predicate Listed(s: State, c: Client, f: string) {
    exists id :: id in Subscribed(s, c) && Printed(id) == Some(f)
  }

  /** Some subscription that prints the fleet is still in force, and after each such one an unsubscription
    * came whose id prints the same and is another: it left the room and took nothing from the index. */
  ghost predicate LostRoom(events: seq<Event>, c: Client, f: string) {
    && (exists id :: Printed(id) == Some(f) && Wanted(events, c, id))
    && forall i: nat, id :: WantedAt(events, i, c, id) && Printed(id) == Some(f) ==>
      exists j :: i < j < |events| && Expels(events[j], c, f)
  }

  lemma JoinedIsWanted(events: seq<Event>, i: nat, c: Client, f: string)
    requires JoinedAt(events, i, c, f)
    ensures WantedAt(events, i, c, events[i].fleetId) && Wanted(events, c, events[i].fleetId)
  {
    var id := events[i].fleetId;
    assert forall e :: Unwants(e, c, id) ==> Expels(e, c, f);
  }

  /** A client in a room has an id that prints it in the index. The converse holds exactly unless the room
    * was left under another id with the same print. */
  lemma IndexAgreesWithRooms(events: seq<Event>, c: Client, f: string)
    ensures c in Members(Run(events).rooms, Room(f)) ==> Listed(Run(events), c, f)
    ensures (Listed(Run(events), c, f) <==> c in Members(Run(events).rooms, Room(f))) <==> !LostRoom(events, c, f)
  {
    RunAgrees(events, c, Missing, f);
    forall id ensures id in Subscribed(Run(events), c) <==> Wanted(events, c, id) {
      RunAgrees(events, c, id, f);
    }
    if i: nat :| JoinedAt(events, i, c, f) {
      JoinedIsWanted(events, i, c, f);
      assert events[i].fleetId in Subscribed(Run(events), c);
    }
    forall i: nat, id | WantedAt(events, i, c, id) && Printed(id) == Some(f)
      ensures JoinedAt(events, i, c, f) <==> !exists j :: i < j < |events| && Expels(events[j], c, f)
    {
    }
  }

  /** Index and rooms agree on every fleet for one client. */
  ghost predicate Consistent(s: State, c: Client) {
    forall f :: Listed(s, c, f) <==> c in Members(s.rooms, Room(f))
  }

  /** An unsubscription whose id prints like another one in the client's set. */
  ghost predicate Splits(s: State, e: Event, c: Client) {
    && e.Unsubscribe? && e.client == c && c in s.connected && Printed(e.fleetId).Some?
    && exists id :: id in Subscribed(s, c) && id != e.fleetId && Printed(id) == Printed(e.fleetId)
  }

  /** What one event does to the ids that print one fleet. */
  lemma KeepsListed(s: State, e: Event, c: Client, f: string)
    requires !Splits(s, e, c) && (c in s.subscriptions ==> c in s.connected)
    ensures Listed(Apply(s, e), c, f) <==>
      || (Enters(e, c, f) && c in s.connected)
      || (Listed(s, c, f) && !Expels(e, c, f))
  {
    hide Printed, Truthy;
    var s' := Apply(s, e);
    if Listed(s, c, f) && !Expels(e, c, f) {
      var id :| id in Subscribed(s, c) && Printed(id) == Some(f);
      assert id in Subscribed(s', c);
    }
    if Enters(e, c, f) && c in s.connected {
      assert e.fleetId in Subscribed(s', c);
    }
    if Listed(s', c, f) {
      var id :| id in Subscribed(s', c) && Printed(id) == Some(f);
      assert id in Subscribed(s, c) || Enters(e, c, f);
    }
  }

  /** From agreement, one event leads out of it exactly when it is such an unsubscription. */
  lemma StepKeepsConsistent(s: State, e: Event, c: Client)
    requires Consistent(s, c) && (c in s.subscriptions ==> c in s.connected)
    ensures Consistent(Apply(s, e), c) <==> !Splits(s, e, c)
  {
    hide Room, Printed, Truthy;
    var s' := Apply(s, e);
    forall f, g ensures Room(f) == Room(g) <==> f == g { RoomInjective(f, g); }
    if Splits(s, e, c) {
      var f := Printed(e.fleetId).value;
      var id :| id in Subscribed(s, c) && id != e.fleetId && Printed(id) == Printed(e.fleetId);
      assert id in Subscribed(s', c);
      assert Listed(s', c, f) && c !in Members(s'.rooms, Room(f));
    } else {
      forall f ensures Listed(s', c, f) <==> c in Members(s'.rooms, Room(f)) {
        assert Listed(s, c, f) <==> c in Members(s.rooms, Room(f));
        KeepsListed(s, e, c, f);
      }
    }
  }

  /** Every message of the client carries text, as the declared type of the body says. */
  ghost predicate Typed(events: seq<Event>, c: Client) {
    forall i :: 0 <= i < |events| && (events[i].Subscribe? || events[i].Unsubscribe?) && events[i].client == c ==>
      events[i].fleetId.Text?
  }

  /** For such a client the index and the rooms always agree, and follow its latest word on the fleet. */
  lemma TypedAgrees(events: seq<Event>, c: Client, f: string)
    requires Typed(events, c)
    ensures c in Members(Run(events).rooms, Room(f)) <==> Wanted(events, c, Text(f))
    ensures c in Members(Run(events).rooms, Room(f)) <==> Text(f) in Subscribed(Run(events), c)
    ensures c in Members(Run(events).rooms, Room(f)) <==> Listed(Run(events), c, f)
  {
    RunAgrees(events, c, Text(f), f);
    IndexAgreesWithRooms(events, c, f);
    forall i: nat ensures JoinedAt(events, i, c, f) <==> WantedAt(events, i, c, Text(f)) {
    }
    forall id | id in Subscribed(Run(events), c) && Printed(id) == Some(f) ensures id == Text(f) {
      RunAgrees(events, c, id, f);
      var i :| WantedAt(events, i, c, id);
    }
  }

  /** Runs in which they part: an unsubscription without a fleet id, with null, and with an array. */
  lemma IndexOutlivesRoom(f: string, other: Id)
    requires Printed(other) == Some(f) && other != Text(f) && f != ""
    ensures var s := Run([Connect("c"), Subscribe("c", Text(f)), Unsubscribe("c", other)]);
      Text(f) in Subscribed(s, "c") && "c" !in Members(s.rooms, Room(f))
  {
    var events := [Connect("c"), Subscribe("c", Text(f)), Unsubscribe("c", other)];
    assert events[..2] == [Connect("c"), Subscribe("c", Text(f))];
    assert events[..2][..1] == [Connect("c")];
    assert events[..2][..1][..0] == [];
    assert Run(events[..2][..1]) == Apply(EMPTY, Connect("c"));
  }

  // ----- the objects -----

  /** One copy of the payload for each client. */
  function Deliveries<P(==,!new)>(to: set<Client>, payload: P): (d: multiset<(Client, P)>)
    ensures forall c, p :: d[(c, p)] == if c in to && p == payload then 1 else 0
  {
    multiset(set c | c in to :: (c, payload))
  }

  /** The part of a socket.io server the gateway uses. */
  class Server<P(==,!new)> {
    var connected: set<Client>
    var rooms: map<string, set<Client>>
    var sent: multiset<(Client, P)>  // what has been delivered to whom

    constructor ()
      ensures connected == {} && rooms == map[] && sent == multiset{}
    {
      connected, rooms, sent := {}, map[], multiset{};
    }

    /** Emits once to each member of the room. */
    method Emit(room: string, payload: P)
      modifies this`sent
      ensures sent == old(sent) + Deliveries(Members(rooms, room), payload)
    {
      sent := sent + Deliveries(Members(rooms, room), payload);
    }
  }

  /** The handler's answer: nothing, an exception, or the acknowledgement with the id as it came. */
  datatype Reply = Silence | Thrown | Success(fleetId: Id)

  class TelemetryGateway<P(==,!new)> {
    const server: Server<P>
    var subscriptions: map<Client, set<Id>>

    constructor (server: Server<P>)
      ensures this.server == server && subscriptions == map[]
    {
      this.server, subscriptions := server, map[];
    }

    ghost function Current(): State
      reads this, server
    {
      State(server.connected, subscriptions, server.rooms)
    }

    method HandleConnection(client: Client)
      modifies server`connected
      ensures Current() == Apply(old(Current()), Connect(client))
    {
      server.connected := server.connected + {client};
    }

    method HandleDisconnect(client: Client)
      modifies this, server`connected, server`rooms
      ensures Current() == Apply(old(Current()), Disconnect(client))
    {
      server.connected := server.connected - {client};
      server.rooms := LeaveAll(server.rooms, client);
      subscriptions := subscriptions - {client};
    }

    method HandleSubscribe(client: Client, fleetId: Id) returns (reply: Reply)
      requires client in server.connected
      modifies this, server`rooms
      ensures Current() == Apply(old(Current()), Subscribe(client, fleetId))
      ensures reply == if !Truthy(fleetId) then Silence else if Printed(fleetId).None? then Thrown else Success(fleetId)
    {
      if !Truthy(fleetId) {
        return Silence;
      }
      var fleets := if client in subscriptions then subscriptions[client] else {};
      fleets := fleets + {fleetId};
      subscriptions := subscriptions[client := fleets];
      var printed := Printed(fleetId);
      if printed.None? {
        return Thrown;
      }
      server.rooms := Join(server.rooms, Room(printed.value), client);
      reply := Success(fleetId);
    }

    method HandleUnsubscribe(client: Client, fleetId: Id) returns (reply: Reply)
      requires client in server.connected
      modifies this, server`rooms
      ensures Current() == Apply(old(Current()), Unsubscribe(client, fleetId))
      ensures reply ==
        if client in old(subscriptions) && Printed(fleetId).None? then Thrown else Success(fleetId)
    {
      if client in subscriptions {
        var fleets := subscriptions[client];
        fleets := fleets - {fleetId};
        subscriptions := subscriptions[client := fleets];
        var printed := Printed(fleetId);
        if printed.None? {
          return Thrown;
        }
        server.rooms := Leave(server.rooms, Room(printed.value), client);
      }
      reply := Success(fleetId);
    }

    /** Delivers the payload once to each member of the fleet's room. */
    method BroadcastToFleet(fleetId: string, telemetry: P)
      modifies server`sent
      ensures server.sent == old(server.sent) + Deliveries(Members(server.rooms, Room(fleetId)), telemetry)
    {
      server.Emit(Room(fleetId), telemetry);
    }
  }
}

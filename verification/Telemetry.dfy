/** TelemetryService: each reading is broadcast to its fleet and recorded; the records are read back. */
module Telemetry {
  import opened Wrappers
  import opened Sequences
  import G = Gateway
  import P = Pagination
  import W = PageWalk

  datatype Reading = Reading(
    vehicleId: string, latitude: real, longitude: real, speed: real, soc: real, temperature: real,
    fleetId: Option<string>)

  datatype Location = Location(lat: real, lon: real)

  datatype Payload = Payload(
    vehicleId: string, fleetId: string, location: Location, speed: real, soc: real, temperature: real,
    receivedAt: int)

  /** What is saved; the store stamps it with its creation time. */
  datatype Draft = Draft(
    vehicleId: string, latitude: real, longitude: real, speed: real, soc: real, temperature: real,
    fleetId: string)

  datatype Record = Record(draft: Draft, createdAt: int)

  function EffectiveFleet(dto: Reading): string {
    match dto.fleetId case Some(f) => f case None => "unknown"
  }

  function PayloadOf(dto: Reading, now: int): Payload {
    Payload(dto.vehicleId, EffectiveFleet(dto), Location(dto.latitude, dto.longitude),
            dto.speed, dto.soc, dto.temperature, now)
  }

  function DraftOf(dto: Reading): Draft {
    Draft(dto.vehicleId, dto.latitude, dto.longitude, dto.speed, dto.soc, dto.temperature,
          match dto.fleetId case Some(f) => f case None => "unknown")
  }

  /** The record a subscriber would write down from a payload. */
  function Noted(p: Payload): Draft {
    Draft(p.vehicleId, p.location.lat, p.location.lon, p.speed, p.soc, p.temperature, p.fleetId)
  }

  // ----- runs of concurrent ingests -----

  /** Ingest: the vehicle lookup has answered, and up to the next await the code broadcasts and issues the
    * save. Saved: the i-th save under way settles. */
  datatype Step =
    | Message(event: G.Event)
    | Ingest(dto: Reading, found: bool, now: int, broadcastFails: bool)
    | Saved(i: nat, createdAt: int, fails: bool)

  datatype State = State(
    gate: G.State, sent: multiset<(G.Client, Payload)>, saving: seq<Draft>, records: seq<Record>)

  const EMPTY: State := State(G.EMPTY, multiset{}, [], [])

  /** What has been sent once p is broadcast as well. */
  function Broadcast(s: State, p: Payload): multiset<(G.Client, Payload)> {
    s.sent + G.Deliveries(G.Members(s.gate.rooms, G.Room(p.fleetId)), p)
  }

  function Apply(s: State, step: Step): State {
    match step
    case Message(e) => s.(gate := G.Apply(s.gate, e))
    case Ingest(dto, found, now, broadcastFails) =>
      if !found then s
      else
        var p := PayloadOf(dto, now);
        s.(sent := if p.fleetId != "" && !broadcastFails then Broadcast(s, p) else s.sent,
           saving := s.saving + [DraftOf(dto)])
    case Saved(i, createdAt, fails) =>
      if i >= |s.saving| then s
      else
        s.(saving := s.saving[..i] + s.saving[i + 1..],
           records := if fails then s.records else s.records + [Record(s.saving[i], createdAt)])
  }

  function Run(steps: seq<Step>): State {
    if steps == [] then EMPTY
    else Apply(Run(steps[..|steps| - 1]), steps[|steps| - 1])
  }

  /** What the clients did. */
  function Events(steps: seq<Step>): seq<G.Event> {
    if steps == [] then []
    else
      var before, last := Events(steps[..|steps| - 1]), steps[|steps| - 1];
      if last.Message? then before + [last.event] else before
  }

  lemma {:induction false} GateIsRun(steps: seq<Step>)
    ensures Run(steps).gate == G.Run(Events(steps))
  {
    if steps != [] {
      GateIsRun(steps[..|steps| - 1]);
      var before, last := Events(steps[..|steps| - 1]), steps[|steps| - 1];
      if last.Message? {
        assert (before + [last.event])[..|before|] == before;
      }
    }
  }

  /** How often a client ought to have been sent a payload: once for each accepted reading with that payload,
    * a non-empty fleet id and no broadcast error, that came while the client was subscribed. */
  ghost function Due(steps: seq<Step>, c: G.Client, p: Payload): nat {
    if steps == [] then 0
    else
      var before, last := steps[..|steps| - 1], steps[|steps| - 1];
      Due(before, c, p)
      + if last.Ingest? && last.found && !last.broadcastFails && PayloadOf(last.dto, last.now) == p
          && p.fleetId != "" && G.Joined(Events(before), c, p.fleetId) then 1 else 0
  }

  /** In every run each subscriber has been sent exactly what is due, and nobody else anything. */
  lemma {:induction false} DeliveredOnce(steps: seq<Step>, c: G.Client, p: Payload)
    ensures Run(steps).sent[(c, p)] == Due(steps, c, p)
  {
    if steps != [] {
      var before, last := steps[..|steps| - 1], steps[|steps| - 1];
      DeliveredOnce(before, c, p);
      GateIsRun(before);
      if last.Ingest? {
        G.BroadcastReaches(Events(before), PayloadOf(last.dto, last.now).fleetId);
      }
    }
  }

  /** A client in the room of the empty fleet id: it subscribed with an array or object that prints nothing. */
  ghost predicate InEmptyRoom(steps: seq<Step>, c: G.Client) {
    exists i: nat :: G.JoinedAt(Events(steps), i, c, "") && Events(steps)[i].fleetId.Object?
  }

  /** Broadcasting a payload without a fleet id as well would deliver it once to each such client, and
    * nothing more. */
  lemma SkippingLoses(steps: seq<Step>, p: Payload, c: G.Client, q: Payload)
    requires p.fleetId == ""
    ensures Broadcast(Run(steps), p)[(c, q)] ==
      Run(steps).sent[(c, q)] + if q == p && InEmptyRoom(steps, c) then 1 else 0
  {
    GateIsRun(steps);
    G.EmptyRoom(Events(steps));
  }

  /** So skipping it loses no delivery exactly when there is no such client. */
  lemma SkippingLosesNothing(steps: seq<Step>, p: Payload)
    requires p.fleetId == ""
    ensures Broadcast(Run(steps), p) == Run(steps).sent <==> forall c :: !InEmptyRoom(steps, c)
  {
    if c :| InEmptyRoom(steps, c) {
      SkippingLoses(steps, p, c, p);
      assert Broadcast(Run(steps), p)[(c, p)] != Run(steps).sent[(c, p)];
    } else {
      forall d ensures Broadcast(Run(steps), p)[d] == Run(steps).sent[d] {
        SkippingLoses(steps, p, d.0, d.1);
      }
    }
  }

  // ----- no reading is lost on the way to the store, except by a failed save -----

  function AcceptedBy(step: Step): multiset<Draft> {
    if step.Ingest? && step.found then multiset{Noted(PayloadOf(step.dto, step.now))} else multiset{}
  }

  function LostBy(s: State, step: Step): multiset<Draft> {
    if step.Saved? && step.fails && step.i < |s.saving| then multiset{s.saving[step.i]} else multiset{}
  }

  /** The payloads of the accepted readings, as records. */
  function Accepted(steps: seq<Step>): multiset<Draft> {
    if steps == [] then multiset{}
    else Accepted(steps[..|steps| - 1]) + AcceptedBy(steps[|steps| - 1])
  }

  function Lost(steps: seq<Step>): multiset<Draft> {
    if steps == [] then multiset{}
    else Lost(steps[..|steps| - 1]) + LostBy(Run(steps[..|steps| - 1]), steps[|steps| - 1])
  }

  function Stored(records: seq<Record>): seq<Draft> {
    seq(|records|, i requires 0 <= i < |records| => records[i].draft)
  }

  function Held(s: State): multiset<Draft> {
    multiset(Stored(s.records)) + multiset(s.saving)
  }

  lemma Removed<T>(s: seq<T>, i: nat)
    requires i < |s|
    ensures multiset(s[..i] + s[i + 1..]) + multiset{s[i]} == multiset(s)
  {
    assert s == s[..i] + [s[i]] + s[i + 1..];
  }

  lemma StoredMore(records: seq<Record>, r: Record)
    ensures Stored(records + [r]) == Stored(records) + [r.draft]
  {
  }

  lemma Moves<T>(stored: multiset<T>, saving: multiset<T>, saving': multiset<T>, x: T)
    requires saving' + multiset{x} == saving
    ensures (stored + multiset{x}) + saving' == stored + saving
    ensures (stored + saving') + multiset{x} == stored + saving
  {
  }

  lemma HeldSaved(s: State, i: nat, createdAt: int, fails: bool)
    requires i < |s.saving|
    ensures var s' := Apply(s, Saved(i, createdAt, fails));
      Held(s') + (if fails then multiset{s.saving[i]} else multiset{}) == Held(s)
  {
    hide Stored;
    var draft, saving' := s.saving[i], s.saving[..i] + s.saving[i + 1..];
    Removed(s.saving, i);
    StoredMore(s.records, Record(draft, createdAt));
    Moves(multiset(Stored(s.records)), multiset(s.saving), multiset(saving'), draft);
  }

  lemma HeldIngest(s: State, dto: Reading, now: int, broadcastFails: bool)
    ensures Held(Apply(s, Ingest(dto, true, now, broadcastFails))) == Held(s) + multiset{Noted(PayloadOf(dto, now))}
  {
  }

  lemma HeldElsewhere(s: State, gate: G.State)
    ensures Held(s.(gate := gate)) == Held(s)
  {
  }

  /** A reading taken in adds the record of its payload; a save that settles keeps it or loses it. */
  lemma HeldStep(s: State, step: Step)
    ensures Held(Apply(s, step)) + LostBy(s, step) == Held(s) + AcceptedBy(step)
  {
    hide Held;
    match step
    case Message(e) =>
      HeldElsewhere(s, G.Apply(s.gate, e));
    case Ingest(dto, found, now, broadcastFails) =>
      if found {
        hide Apply;
        HeldIngest(s, dto, now, broadcastFails);
      }
    case Saved(i, createdAt, fails) =>
      if i < |s.saving| {
        hide Apply;
        HeldSaved(s, i, createdAt, fails);
      }
  }

  lemma Balance<T>(held: multiset<T>, held': multiset<T>, lost: multiset<T>, lost': multiset<T>,
                   accepted: multiset<T>, accepted': multiset<T>)
    requires held + lost == accepted && held' + lost' == held + accepted'
    ensures held' + (lost + lost') == accepted + accepted'
  {
    forall x ensures (held' + (lost + lost'))[x] == (accepted + accepted')[x] {
      assert (held + lost)[x] == accepted[x] && (held' + lost')[x] == (held + accepted')[x];
    }
  }

  /** In every run, whatever the order in which saves settle: what is stored, being saved or lost is, field
    * by field and one for one, what the accepted readings' payloads said. */
  lemma {:induction false} RecordsAgreeWithPayloads(steps: seq<Step>)
    ensures Held(Run(steps)) + Lost(steps) == Accepted(steps)
  {
    hide Apply, AcceptedBy, LostBy;
    if steps != [] {
      hide Held;
      var before, last := steps[..|steps| - 1], steps[|steps| - 1];
      RecordsAgreeWithPayloads(before);
      HeldStep(Run(before), last);
      Balance(Held(Run(before)), Held(Run(steps)), Lost(before), LostBy(Run(before), last),
              Accepted(before), AcceptedBy(last));
    } else {
      assert Stored([]) == [];
    }
  }

  // ----- reading back -----

  /** ORDER BY createdAt DESC. */
  function Newest(r: Record): int {
    -r.createdAt
  }

  predicate Selects(vehicleId: string, from: Option<int>, to: Option<int>, r: Record) {
    && r.draft.vehicleId == vehicleId
    && (from.Some? ==> from.value <= r.createdAt)
    && (to.Some? ==> r.createdAt <= to.value)
  }

  function Matching(records: seq<Record>, vehicleId: string, from: Option<int>, to: Option<int>): seq<Record> {
    Filter(r => Selects(vehicleId, from, to, r), records)
  }

  /** An order in which the store may answer a query for the matching records. */
  ghost predicate MayAnswer(records: seq<Record>, vehicleId: string, from: Option<int>, to: Option<int>,
                            answer: seq<Record>) {
    W.Reorders(Newest, Matching(records, vehicleId, from, to), answer)
  }

  /** The record getLatest returns. */
  function First(answer: seq<Record>): Option<Record> {
    if answer == [] then None else Some(answer[0])
  }

  ghost predicate DistinctTimes(rows: seq<Record>) {
    W.DistinctKeys(Newest, rows)
  }

  lemma AnswerMembers(records: seq<Record>, vehicleId: string, from: Option<int>, to: Option<int>,
                      answer: seq<Record>, r: Record)
    requires MayAnswer(records, vehicleId, from, to, answer)
    ensures r in answer <==> r in records && Selects(vehicleId, from, to, r)
  {
    FilterMembers(x => Selects(vehicleId, from, to, x), records, r);
    assert r in answer <==> r in multiset(answer);
    assert r in Matching(records, vehicleId, from, to) <==> r in multiset(Matching(records, vehicleId, from, to));
  }

  /** The answer holds each stored record of the vehicle within the bounds as often as it is stored, and nothing
    * else, newest first. */
  ghost predicate Lists(records: seq<Record>, vehicleId: string, from: Option<int>, to: Option<int>,
                        answer: seq<Record>) {
    && (forall rec: Record ::
          var wanted := rec.draft.vehicleId == vehicleId && (from.Some? ==> from.value <= rec.createdAt)
            && (to.Some? ==> rec.createdAt <= to.value);
          multiset(answer)[rec] == if wanted then multiset(records)[rec] else 0)
    && |answer| ==
         |set i: nat | i < |records| && records[i].draft.vehicleId == vehicleId
            && (from.Some? ==> from.value <= records[i].createdAt)
            && (to.Some? ==> records[i].createdAt <= to.value)|
    && (forall i, j :: 0 <= i < j < |answer| ==> answer[i].createdAt >= answer[j].createdAt)
  }

  lemma MatchingSize(records: seq<Record>, vehicleId: string, from: Option<int>, to: Option<int>)
    ensures |Matching(records, vehicleId, from, to)| ==
      |set i: nat | i < |records| && records[i].draft.vehicleId == vehicleId
         && (from.Some? ==> from.value <= records[i].createdAt)
         && (to.Some? ==> records[i].createdAt <= to.value)|
  {
    var selects := (r: Record) => Selects(vehicleId, from, to, r);
    assert Filter(selects, records) == Matching(records, vehicleId, from, to);
    FilterSize(selects, records);
    assert Places(selects, records) ==
      set i: nat | i < |records| && records[i].draft.vehicleId == vehicleId
         && (from.Some? ==> from.value <= records[i].createdAt) && (to.Some? ==> records[i].createdAt <= to.value);
  }

  lemma AnswerIs(records: seq<Record>, vehicleId: string, from: Option<int>, to: Option<int>, answer: seq<Record>)
    requires MayAnswer(records, vehicleId, from, to, answer)
    ensures Lists(records, vehicleId, from, to, answer)
  {
    MatchingSize(records, vehicleId, from, to);
    var rows := Matching(records, vehicleId, from, to);
    assert |multiset(answer)| == |answer| && |multiset(rows)| == |rows|;
    forall rec ensures multiset(answer)[rec] == if Selects(vehicleId, from, to, rec) then multiset(records)[rec] else 0 {
      FilterCounts(r => Selects(vehicleId, from, to, r), records, rec);
    }
    forall i, j | 0 <= i < j < |answer| ensures answer[i].createdAt >= answer[j].createdAt {
      assert Newest(answer[i]) <= Newest(answer[j]);
    }
  }

  lemma WhereMatches(where: Record -> bool, records: seq<Record>, vehicleId: string,
                     from: Option<int>, to: Option<int>, answer: seq<Record>)
    requires forall rec :: where(rec) <==> Selects(vehicleId, from, to, rec)
    requires MayAnswer(records, vehicleId, from, to, answer)
    ensures |Filter(where, records)| == |answer|
  {
    SameFilter(where, (rec: Record) => Selects(vehicleId, from, to, rec), records);
    assert Filter(where, records) == Matching(records, vehicleId, from, to);
    assert |multiset(answer)| == |answer| && |multiset(Filter(where, records))| == |Filter(where, records)|;
  }

  /** Each record of a page belongs to the vehicle and lies within the bounds. */
  lemma PageWithin(records: seq<Record>, vehicleId: string, from: Option<int>, to: Option<int>,
                   answer: seq<Record>, page: seq<Record>)
    requires MayAnswer(records, vehicleId, from, to, answer) && forall rec :: rec in page ==> rec in answer
    ensures forall rec :: rec in page ==>
      && rec in records && rec.draft.vehicleId == vehicleId
      && (from.Some? ==> from.value <= rec.createdAt) && (to.Some? ==> rec.createdAt <= to.value)
  {
    forall rec | rec in page ensures rec in records && Selects(vehicleId, from, to, rec) {
      AnswerMembers(records, vehicleId, from, to, answer, rec);
    }
  }

  /** getLatest and the first page of an unbounded getHistory agree on the newest time, whatever the store's
    * choices among ties, and on the record itself when no two of the vehicle's records share a time. */
  lemma LatestHeadsHistory(records: seq<Record>, vehicleId: string, perPage: nat,
                           answer: seq<Record>, other: seq<Record>)
    requires perPage >= 1
    requires MayAnswer(records, vehicleId, None, None, answer)
    requires MayAnswer(records, vehicleId, None, None, other)
    ensures First(answer).None? <==> W.Window(other, 1, perPage) == []
    ensures var page := W.Window(other, 1, perPage);
      page != [] ==> First(answer).value.createdAt == page[0].createdAt
    ensures DistinctTimes(Matching(records, vehicleId, None, None)) ==>
      First(answer) == First(W.Window(other, 1, perPage))
  {
    assert |multiset(answer)| == |answer| && |multiset(other)| == |other|;
    if answer != [] {
      assert other[0] in multiset(answer) && answer[0] in multiset(other);
      var page := W.Window(other, 1, perPage);
      assert page[0] == other[0];
      if DistinctTimes(Matching(records, vehicleId, None, None)) {
        W.SortedIsStrict(Newest, Matching(records, vehicleId, None, None), answer);
        W.ArrangementUnique(Newest, answer, other);
      }
    }
  }

  /** All pages of a history, each from a query of its own, when no two of the records share a time. */
  lemma HistoryWalk(records: seq<Record>, vehicleId: string, from: Option<int>, to: Option<int>, perPage: nat,
                    whole: seq<Record>, answers: seq<seq<Record>>)
    requires perPage >= 1 && DistinctTimes(Matching(records, vehicleId, from, to))
    requires MayAnswer(records, vehicleId, from, to, whole)
    requires W.Answers(Newest, Matching(records, vehicleId, from, to), perPage, answers)
    ensures W.Walked(answers, perPage, |answers|) == whole && Lists(records, vehicleId, from, to, whole)
  {
    AnswerIs(records, vehicleId, from, to, whole);
    W.UniqueKeyWalk(Newest, Matching(records, vehicleId, from, to), whole, perPage, answers);
  }

  // ----- the service -----

  /** One more condition on a query. */
  function AndWhere(where: Record -> bool, and: Record -> bool): Record -> bool {
    rec => where(rec) && and(rec)
  }

  datatype Reply = Success(payload: Payload) | VehicleNotFound

  class TelemetryService {
    const gateway: G.TelemetryGateway<Payload>
    var vehicles: set<string>
    var records: seq<Record>

    constructor (gateway: G.TelemetryGateway<Payload>, vehicles: set<string>)
      ensures this.gateway == gateway && this.vehicles == vehicles && records == []
    {
      this.gateway, this.vehicles, records := gateway, vehicles, [];
    }

    ghost function Current(): State
      reads this, gateway, gateway.server
    {
      State(gateway.Current(), gateway.server.sent, [], records)
    }

    /** One call on its own: its lookup and broadcast, then its save. A failed broadcast or save is logged,
      * and the caller is told of success all the same. */
    method IngestTelemetry(dto: Reading, now: int, broadcastFails: bool, saveFails: bool, createdAt: int)
      returns (r: Reply)
      modifies this`records, gateway.server`sent
      ensures var found := dto.vehicleId in vehicles;
        var begun := Apply(old(Current()), Ingest(dto, found, now, broadcastFails));
        Current() == if found then Apply(begun, Saved(0, createdAt, saveFails)) else begun
      ensures r == if dto.vehicleId !in vehicles then VehicleNotFound else
        Success(Payload(dto.vehicleId, if dto.fleetId.None? then "unknown" else dto.fleetId.value,
                        Location(dto.latitude, dto.longitude), dto.speed, dto.soc, dto.temperature, now))
      ensures records == if dto.vehicleId !in vehicles || saveFails then old(records) else
        old(records) + [Record(Draft(dto.vehicleId, dto.latitude, dto.longitude, dto.speed, dto.soc, dto.temperature,
                                     if dto.fleetId.None? then "unknown" else dto.fleetId.value), createdAt)]
      ensures gateway.server.sent ==
        if r == VehicleNotFound || broadcastFails || r.payload.fleetId == "" then old(gateway.server.sent)
        else old(gateway.server.sent)
             + G.Deliveries(G.Members(gateway.server.rooms, G.Room(r.payload.fleetId)), r.payload)
    {
      if dto.vehicleId !in vehicles {
        return VehicleNotFound;
      }
      var fleet := EffectiveFleet(dto);
      var payload := Payload(dto.vehicleId, fleet, Location(dto.latitude, dto.longitude),
                             dto.speed, dto.soc, dto.temperature, now);
      if payload.fleetId != "" && !broadcastFails {
        gateway.BroadcastToFleet(payload.fleetId, payload);
      }
      var rec := Draft(dto.vehicleId, dto.latitude, dto.longitude, dto.speed, dto.soc, dto.temperature, fleet);
      if !saveFails {
        records := records + [Record(rec, createdAt)];
      }
      r := Success(payload);
    }

    /** The newest record of the vehicle, if it has any: the first row of the store's answer. */
    method GetLatest(vehicleId: string, answer: seq<Record>) returns (rec: Option<Record>)
      requires MayAnswer(records, vehicleId, None, None, answer)
      ensures rec == First(answer)
      ensures rec.None? <==> forall r :: r in records ==> r.draft.vehicleId != vehicleId
      ensures rec.Some? ==>
        && rec.value in records && rec.value.draft.vehicleId == vehicleId
        && forall r :: r in records && r.draft.vehicleId == vehicleId ==> r.createdAt <= rec.value.createdAt
    {
      forall r ensures r in answer <==> r in records && r.draft.vehicleId == vehicleId {
        AnswerMembers(records, vehicleId, None, None, answer, r);
      }
      if answer == [] {
        return None;
      }
      assert forall i :: 0 <= i < |answer| ==> Newest(answer[0]) <= Newest(answer[i]);
      rec := Some(answer[0]);
    }

    /** One page of the records that meet the conditions added one by one to the query. The request's own
      * validation already turns away a page or page size below 1. */
    method GetHistory(vehicleId: string, from: Option<int>, to: Option<int>, page: int, perPage: int,
                      url: string, answer: seq<Record>) returns (r: P.Answer<Record>)
      requires MayAnswer(records, vehicleId, from, to, answer)
      ensures r == P.Rejected(P.InvalidParameters) <==> page < 1 || perPage < 1
      ensures page >= 1 && perPage >= 1 ==>
        && P.Describes(r, url, page, perPage, |answer|) && r.data == W.Window(answer, page, perPage)
      ensures Lists(records, vehicleId, from, to, answer)
      ensures r.Page? ==> forall rec :: rec in r.data ==>
        && rec in records && rec.draft.vehicleId == vehicleId
        && (from.Some? ==> from.value <= rec.createdAt) && (to.Some? ==> rec.createdAt <= to.value)
    {
      hide Lists, P.Describes, MayAnswer, Filter;
      AnswerIs(records, vehicleId, from, to, answer);
      if page < 1 || perPage < 1 {
        return P.Rejected(P.InvalidParameters);
      }
      var skip := (page - 1) * perPage;
      var where := (rec: Record) => rec.draft.vehicleId == vehicleId;
      if from.Some? {
        where := AndWhere(where, (rec: Record) => from.value <= rec.createdAt);
      }
      if to.Some? {
        where := AndWhere(where, (rec: Record) => rec.createdAt <= to.value);
      }
      var rows := Filter(where, records);
      WhereMatches(where, records, vehicleId, from, to, answer);
      var start := W.Min(skip, |answer|);
      var data := answer[start..W.Min(start + perPage, |answer|)];
      PageWithin(records, vehicleId, from, to, answer, data);
      r := P.GeneratePagination(page, perPage, |rows|, url, data);
    }
  }
}

/** The request handlers of train-late/main.go, without their HTML: the schedule built
    at startup, the route-to-trips selection of `handleTrips`, and the validation, fetch
    and first-match delay scan of `handleLateness`. */
module Handlers {
  import opened Wrappers
  import opened Seqs
  import opened Data
  import opened Gtfs

  /** The loaded routes and trips, which `main` keeps in process-wide variables and never
      changes after startup. */
  datatype Schedule = Schedule(routes: seq<Route>, trips: seq<Trip>)

  /** Startup: routes are read first and a failure there stops the program before the
      trips file is read; then the trips are read. */
  method Startup(routesFile: Source, tripsFile: Source) returns (r: Result<Schedule, LoadError>)
    requires RoutesReadable(routesFile)
    requires LoadRoutes(routesFile).Ok? ==> TripsReadable(tripsFile)
    ensures LoadRoutes(routesFile).Err? ==> r == Err(LoadRoutes(routesFile).error)
    ensures LoadRoutes(routesFile).Ok? ==>
      (r.Ok? <==> LoadTrips(tripsFile).Ok?)
      && (r.Ok? ==> r.value == Schedule(LoadRoutes(routesFile).value, LoadTrips(tripsFile).value))
      && (r.Err? ==> r.error == LoadTrips(tripsFile).error)
  {
    var routes := ReadRoutes(routesFile);
    if routes.Err? {
      return Err(routes.error);
    }
    var trips := ReadTrips(tripsFile);
    if trips.Err? {
      return Err(trips.error);
    }
    return Ok(Schedule(routes.value, trips.value));
  }

  // handleTrips

  /** Whether a trip belongs to the route with identifier `routeId`. */
  function OnRoute(routeId: string): Trip -> bool
  {
    (t: Trip) => t.routeId == routeId
  }

  /** The trips of the route `routeId`, in load order. */
  function TripsForRoute(trips: seq<Trip>, routeId: string): seq<Trip>
  {
    Filter(OnRoute(routeId), trips)
  }

  /** The selection loop of `handleTrips`: the trips whose route identifier equals the
      `route` query parameter (the empty string when it is absent). */
  method HandleTrips(schedule: Schedule, routeId: string) returns (routeTrips: seq<Trip>)
    ensures routeTrips == TripsForRoute(schedule.trips, routeId)
  {
    routeTrips := [];
    for i := 0 to |schedule.trips|
      invariant routeTrips == TripsForRoute(schedule.trips[..i], routeId)
    {
      var trip := schedule.trips[i];
      if trip.routeId == routeId {
        routeTrips := routeTrips + [trip];
      }
      assert schedule.trips[..i + 1] == schedule.trips[..i] + [trip];
      FilterAppend(OnRoute(routeId), schedule.trips[..i], [trip]);
    }
    assert schedule.trips[..|schedule.trips|] == schedule.trips;
  }

  /** The trips returned for a route are exactly the loaded trips of that route: nothing
      added, nothing dropped (with multiplicity), nothing reordered. */
  lemma TripsForRouteExact(trips: seq<Trip>, routeId: string)
    ensures forall t :: t in TripsForRoute(trips, routeId) <==> t in trips && t.routeId == routeId
    ensures forall t ::
      multiset(TripsForRoute(trips, routeId))[t] == if t.routeId == routeId then multiset(trips)[t] else 0
    ensures IsSubsequence(TripsForRoute(trips, routeId), trips)
  {
    FilterMembers(OnRoute(routeId), trips);
    forall t ensures multiset(TripsForRoute(trips, routeId))[t]
      == if t.routeId == routeId then multiset(trips)[t] else 0
    {
      FilterCount(OnRoute(routeId), trips, t);
    }
    FilterIsSubsequence(OnRoute(routeId), trips);
  }

  /** A route identifier no trip carries (an unknown one, or the empty one when no trip
      has an empty route identifier) selects no trips; it is not an error. */
  lemma UnknownRouteHasNoTrips(trips: seq<Trip>, routeId: string)
    requires forall t :: t in trips ==> t.routeId != routeId
    ensures TripsForRoute(trips, routeId) == []
  {
    FilterNone(OnRoute(routeId), trips);
  }

  // handleLateness: the delay scan

  /** The answer of a lookup: whole minutes late, or no delay information for the trip. */
  datatype DelayResult = Minutes(minutes: int32) | NoData

  /** Go's `delay / 60` on an `int32`: the quotient truncated toward zero. */
  function MinutesLate(delay: int32): (m: int32)
    ensures 0 <= delay ==> 0 <= m as int * 60 <= delay as int < m as int * 60 + 60
    ensures delay < 0 ==> m as int * 60 - 60 < delay as int <= m as int * 60 <= 0
  {
    if delay >= 0 then delay / 60 else (-((-(delay as int)) / 60)) as int32
  }

  /** Truncation is symmetric about zero, unlike floor division. */
  lemma MinutesLateIsOdd(delay: int32)
    requires delay != -0x8000_0000
    ensures MinutesLate(-delay) == -MinutesLate(delay)
  {
  }

  lemma MinutesLateExamples()
    ensures MinutesLate(125) == 2 && MinutesLate(-125) == -2
    ensures MinutesLate(59) == 0 && MinutesLate(-59) == 0 && MinutesLate(-45) == 0
    ensures MinutesLate(300) == 5
  {
  }

  /** The departure delay that `e` reports for `tripId`: present only when the entity
      has a trip update whose trip descriptor carries exactly `tripId`, and whose first
      stop-time update has a departure event with a delay. */
  function EntityDelay(e: FeedEntity, tripId: string): Option<int32>
  {
    match e.tripUpdate
    case None => None
    case Some(tu) =>
      if tu.trip.Some? && tu.trip.value.tripId == Some(tripId)
         && |tu.stopTimeUpdate| > 0
         && tu.stopTimeUpdate[0].departure.Some?
         && tu.stopTimeUpdate[0].departure.value.delay.Some?
      then Some(tu.stopTimeUpdate[0].departure.value.delay.value)
      else None
  }

  /** The result of scanning `entities` in document order for `tripId`. */
  function Resolve(entities: seq<FeedEntity>, tripId: string): DelayResult
  {
    if entities == [] then NoData
    else match EntityDelay(entities[0], tripId)
      case Some(d) => Minutes(MinutesLate(d))
      case None => Resolve(entities[1..], tripId)
  }

  /** Entity `i` is the first one that reports a delay for `tripId`. */
  predicate FirstMatchAt(entities: seq<FeedEntity>, tripId: string, i: int)
  {
    && 0 <= i < |entities|
    && EntityDelay(entities[i], tripId).Some?
    && forall j :: 0 <= j < i ==> EntityDelay(entities[j], tripId).None?
  }

  /** The scan answers with the first reporting entity in document order, and with
      "no data" exactly when no entity reports a delay for the trip. */
  lemma {:induction false} ResolveIsFirstMatch(entities: seq<FeedEntity>, tripId: string)
    ensures Resolve(entities, tripId).NoData? <==>
      forall i :: 0 <= i < |entities| ==> EntityDelay(entities[i], tripId).None?
    ensures forall i :: FirstMatchAt(entities, tripId, i) ==>
      Resolve(entities, tripId) == Minutes(MinutesLate(EntityDelay(entities[i], tripId).value))
  {
    if entities != [] {
      var rest := entities[1..];
      ResolveIsFirstMatch(rest, tripId);
      assert forall i :: 1 <= i < |entities| ==> entities[i] == rest[i - 1];
      forall i | FirstMatchAt(entities, tripId, i)
        ensures Resolve(entities, tripId) == Minutes(MinutesLate(EntityDelay(entities[i], tripId).value))
      {
        if i > 0 {
          assert FirstMatchAt(rest, tripId, i - 1);
        }
      }
    }
  }

  /** Scanning stops at the first match: what follows it in the feed does not matter. */
  lemma {:induction false} ResolveStopsAtFirstMatch(entities: seq<FeedEntity>, tripId: string, i: nat, rest: seq<FeedEntity>)
    requires FirstMatchAt(entities, tripId, i)
    ensures Resolve(entities[..i + 1] + rest, tripId) == Resolve(entities, tripId)
  {
    var cut := entities[..i + 1] + rest;
    assert FirstMatchAt(cut, tripId, i) by {
      assert forall j :: 0 <= j <= i ==> cut[j] == entities[j];
    }
    ResolveIsFirstMatch(cut, tripId);
    ResolveIsFirstMatch(entities, tripId);
    assert cut[i] == entities[i];
  }

  /** An entity that reports no delay for the trip, even one about the right trip whose
      stop-time updates are missing or whose first one lacks a departure delay, is
      passed over and the scan goes on. */
  lemma IncompleteEntityIsSkipped(e: FeedEntity, rest: seq<FeedEntity>, tripId: string)
    requires EntityDelay(e, tripId).None?
    ensures Resolve([e] + rest, tripId) == Resolve(rest, tripId)
  {
  }

  /** Each way an entity can fail the condition chain of the scan, for a trip id `tripId`
      and any other id `other`: no trip update, no trip descriptor, no trip id, another
      trip id, no stop-time updates, a first update without a departure, and a departure
      without a delay. Every such entity is passed over. */
  lemma UnusableEntityShapes(tripId: string, other: string, updates: seq<StopTimeUpdate>, rest: seq<FeedEntity>)
    requires other != tripId
    ensures Resolve([FeedEntity(None)] + rest, tripId) == Resolve(rest, tripId)
    ensures Resolve([FeedEntity(Some(TripUpdate(None, updates)))] + rest, tripId) == Resolve(rest, tripId)
    ensures Resolve([FeedEntity(Some(TripUpdate(Some(TripDescriptor(None)), updates)))] + rest, tripId)
      == Resolve(rest, tripId)
    ensures Resolve([FeedEntity(Some(TripUpdate(Some(TripDescriptor(Some(other))), updates)))] + rest, tripId)
      == Resolve(rest, tripId)
    ensures Resolve([FeedEntity(Some(TripUpdate(Some(TripDescriptor(Some(tripId))), [])))] + rest, tripId)
      == Resolve(rest, tripId)
    ensures Resolve([FeedEntity(Some(TripUpdate(Some(TripDescriptor(Some(tripId))),
      [StopTimeUpdate(None)] + updates)))] + rest, tripId) == Resolve(rest, tripId)
    ensures Resolve([FeedEntity(Some(TripUpdate(Some(TripDescriptor(Some(tripId))),
      [StopTimeUpdate(Some(StopTimeEvent(None)))] + updates)))] + rest, tripId) == Resolve(rest, tripId)
  {
  }

  /** An entity for trip 5 without stop-time updates, then one for trip 7 that is 300
      seconds late: trip 7 is 5 minutes late, trips 5 and 99 have no data. */
  lemma ResolveScenario()
    ensures var feed := [
      FeedEntity(Some(TripUpdate(Some(TripDescriptor(Some("5"))), []))),
      FeedEntity(Some(TripUpdate(Some(TripDescriptor(Some("7"))),
        [StopTimeUpdate(Some(StopTimeEvent(Some(300))))])))];
      Resolve(feed, "7") == Minutes(5) && Resolve(feed, "5") == NoData && Resolve(feed, "99") == NoData
  {
  }

  /** The loop over `feed.Entity` in `handleLateness`, returning at the first entity
      whose chain of optional fields is fully present and names the trip. */
  method ScanFeed(feed: FeedMessage, tripId: string) returns (r: DelayResult)
    ensures r == Resolve(feed.entity, tripId)
    ensures r.NoData? <==> forall i :: 0 <= i < |feed.entity| ==> EntityDelay(feed.entity[i], tripId).None?
  {
    ResolveIsFirstMatch(feed.entity, tripId);
    for i := 0 to |feed.entity|
      invariant forall j :: 0 <= j < i ==> EntityDelay(feed.entity[j], tripId).None?
    {
      var entity := feed.entity[i];
      if entity.tripUpdate.Some? && entity.tripUpdate.value.trip.Some?
         && entity.tripUpdate.value.trip.value.tripId.Some?
         && entity.tripUpdate.value.trip.value.tripId.value == tripId
      {
        var stopTimeUpdate := entity.tripUpdate.value.stopTimeUpdate;
        if |stopTimeUpdate| > 0 && stopTimeUpdate[0].departure.Some?
           && stopTimeUpdate[0].departure.value.delay.Some?
        {
          var delay := stopTimeUpdate[0].departure.value.delay.value;
          // Go's integer division truncates; Dafny's `/` would round down
          var minutesLate := MinutesLate(delay);
          assert FirstMatchAt(feed.entity, tripId, i);
          return Minutes(minutesLate);
        }
      }
    }
    return NoData;
  }

  // handleLateness: validation and fetch

  /** The request `handleLateness` sends to the feed endpoint. */
  datatype Request = Request(verb: string, url: string, authorization: string)

  /** The decoded response body: `proto.Unmarshal` either fails or yields a feed. */
  datatype Payload = Undecodable(reason: string) | Decoded(feed: FeedMessage)

  /** How the one request of a lookup ends: the transport fails, the body cannot be read,
      or a body arrives. The response status is not examined by the handler. */
  datatype Reply = TransportFailed(reason: string) | BodyUnreadable(reason: string) | Delivered(payload: Payload)

  /** What `handleLateness` writes back: an HTTP error with its status and message, or
      the lookup's answer. */
  datatype Response = HttpError(status: int, message: string) | Lateness(result: DelayResult)

  const FeedUrl := "https://api.transport.nsw.gov.au/v1/gtfs/realtime/nswtrains"
  const StatusBadRequest := 400
  const StatusInternalServerError := 500

  /** The remote feed endpoint, which records every request it receives and answers
      each with `reply`. */
  class FeedEndpoint {
    var received: seq<Request>
    const reply: Reply

    constructor (reply: Reply)
      ensures received == [] && this.reply == reply
    {
      received := [];
      this.reply := reply;
    }

    method Do(req: Request) returns (r: Reply)
      modifies this`received
      ensures received == old(received) + [req] && r == reply
    {
      received := received + [req];
      r := reply;
    }
  }

  /** A lookup reaches the network only with a trip identifier and a configured API key
      (`os.Getenv` yields the empty string for an unset variable). */
  predicate Fetches(tripId: string, apiKey: string)
  {
    tripId != "" && apiKey != ""
  }

  /** The response of `handleLateness` for trip `tripId`, API key `apiKey` and an
      endpoint that answers `reply`. */
  function LatenessOf(tripId: string, apiKey: string, reply: Reply): Response
  {
    if tripId == "" then HttpError(StatusBadRequest, "tripID is required")
    else if apiKey == "" then HttpError(StatusInternalServerError, "API key not configured")
    else match reply
      case TransportFailed(e) => HttpError(StatusInternalServerError, e)
      case BodyUnreadable(e) => HttpError(StatusInternalServerError, e)
      case Delivered(Undecodable(e)) => HttpError(StatusInternalServerError, e)
      case Delivered(Decoded(feed)) => Lateness(Resolve(feed.entity, tripId))
  }

  /** `handleLateness`: reject an empty trip identifier, then a missing API key, and only
      then send one authenticated GET to the feed and scan the decoded feed. */
  method HandleLateness(tripId: string, apiKey: string, endpoint: FeedEndpoint) returns (resp: Response)
    modifies endpoint
    ensures resp == LatenessOf(tripId, apiKey, endpoint.reply)
    ensures endpoint.received == old(endpoint.received)
      + (if Fetches(tripId, apiKey) then [Request("GET", FeedUrl, "apikey " + apiKey)] else [])
  {
    if tripId == "" {
      return HttpError(StatusBadRequest, "tripID is required");
    }
    if apiKey == "" {
      return HttpError(StatusInternalServerError, "API key not configured");
    }
    var req := Request("GET", FeedUrl, "apikey " + apiKey);
    var reply := endpoint.Do(req);
    match reply
    case TransportFailed(e) =>
      return HttpError(StatusInternalServerError, e);
    case BodyUnreadable(e) =>
      return HttpError(StatusInternalServerError, e);
    case Delivered(Undecodable(e)) =>
      return HttpError(StatusInternalServerError, e);
    case Delivered(Decoded(feed)) =>
      var result := ScanFeed(feed, tripId);
      return Lateness(result);
  }

  /** The empty trip identifier is rejected as a bad request whatever the API key and
      the feed; a missing API key is rejected next, whatever the feed. */
  lemma GuardOrder(tripId: string, apiKey: string, reply: Reply, other: Reply)
    ensures tripId == "" ==> LatenessOf(tripId, apiKey, reply) == HttpError(400, "tripID is required")
    ensures tripId != "" && apiKey == "" ==>
      LatenessOf(tripId, apiKey, reply) == HttpError(500, "API key not configured")
    ensures !Fetches(tripId, apiKey) ==> LatenessOf(tripId, apiKey, reply) == LatenessOf(tripId, apiKey, other)
  {
  }

  /** A lookup gives an answer (minutes late or no data) exactly when it fetched a feed
      that decoded, and the answer is the scan of that feed; "no data" is an answer, not
      an error. */
  lemma AnsweredIffFeedDecoded(tripId: string, apiKey: string, reply: Reply)
    ensures LatenessOf(tripId, apiKey, reply).Lateness? <==>
      Fetches(tripId, apiKey) && reply.Delivered? && reply.payload.Decoded?
    ensures LatenessOf(tripId, apiKey, reply).Lateness? ==>
      LatenessOf(tripId, apiKey, reply).result == Resolve(reply.payload.feed.entity, tripId)
  {
  }

  /** With a trip identifier but no API key, the lookup fails while the endpoint's
      request count stays at zero. */
  method MissingKeyScenario(tripId: string, reply: Reply) returns (resp: Response, requests: nat)
    requires tripId != ""
    ensures resp == HttpError(500, "API key not configured") && requests == 0
  {
    var endpoint := new FeedEndpoint(reply);
    resp := HandleLateness(tripId, "", endpoint);
    requests := |endpoint.received|;
  }
}

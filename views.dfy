/** The REST actions of `TaxiViewSet` and `RideViewSet`. Actions that only
    read are functions and methods over a database value; actions that write
    are methods of `Store`, which holds the database, keeps its invariant,
    and sends group messages through a `ChannelLayer`. A distance is a
    parameter of the actions that need one: the taxi actions measure in
    kilometres and the ride actions in metres. */
module Views {
  import opened Common
  import opened Models
  import opened Permissions
  import opened Serializers
  import opened Channels

  /** A distance between (lat1, lng1) and (lat2, lng2). */
  type Metric = (real, real, real, real) -> real

  /** `nearby_taxis` keeps taxis within one kilometre. */
  const NearbyTaxiKm: real := 1.0

  /** `nearby_rides` uses a 500 metre radius when none is given. */
  const DefaultRadiusM: real := 500.0

  // ---------------------------------------------------------------------
  // Lookups.

  /** `TaxiViewSet.get_object`: the taxi with that key, from all taxis. */
  function GetTaxi(db: Db, id: TaxiId): (r: Result<nat>)
    ensures r.Ok? <==> id in TaxiIds(db.taxis)
    ensures r.Ok? ==> r.value < |db.taxis| && db.taxis[r.value].id == id
    ensures r.Err? ==> r.error == NotFound
  {
    match FindTaxi(db.taxis, id)
    case None => Err(NotFound)
    case Some(k) => Ok(k)
  }

  /** `RideViewSet.get_object`: the ride with that key. */
  function GetRide(db: Db, id: RideId): (r: Result<nat>)
    ensures r.Ok? ==> r.value < |db.rides| && db.rides[r.value].id == id
    ensures r.Err? ==> r.error == NotFound && forall k :: 0 <= k < |db.rides| ==> db.rides[k].id != id
  {
    match FindRide(db.rides, id)
    case None => Err(NotFound)
    case Some(k) => Ok(k)
  }

  // ---------------------------------------------------------------------
  // rate

  /** The score test of `rate`: a missing or zero score is refused, and so
      is one below 1 or above 5. */
  function ScoreAccepted(score: Option<int>): (ok: bool)
    ensures ok <==> score.Some? && 1 <= score.value <= 5
  {
    !(score.None? || score.value == 0 || score.value < 1 || score.value > 5)
  }

  /** `TaxiRating.objects.update_or_create(taxi, user, defaults={"score": …})`. */
  function RateDb(db: Db, taxi: TaxiId, user: UserId, score: int): Db {
    match FindRating(db.ratings, taxi, user)
    case Some(j) => db.(ratings := db.ratings[j := db.ratings[j].(score := score)])
    case None => db.(ratings := db.ratings + [Rating(db.nextRatingId, taxi, user, score)],
                     nextRatingId := db.nextRatingId + 1)
  }

  /** After rating, the row for (taxi, user) holds the new score, and it is
      the only row for that pair. */
  lemma RateSetsScore(db: Db, taxi: TaxiId, user: UserId, score: int)
    requires Valid(db) && taxi in TaxiIds(db.taxis) && user in UserIds(db.users)
    ensures var d := RateDb(db, taxi, user, score);
      && FindRating(d.ratings, taxi, user).Some?
      && d.ratings[FindRating(d.ratings, taxi, user).value].score == score
      && OneRatingPerPair(d.ratings)
  {
    var d := RateDb(db, taxi, user, score);
    RateKeepsValid(db, taxi, user, score);
    match FindRating(db.ratings, taxi, user)
    case Some(j) =>
      assert d.ratings[j].taxi == taxi && d.ratings[j].user == user;
    case None =>
      assert d.ratings[|db.ratings|].taxi == taxi && d.ratings[|db.ratings|].user == user;
  }

  /** Rating touches no other user's or taxi's row, and no other table. */
  lemma RateKeepsOthers(db: Db, taxi: TaxiId, user: UserId, score: int)
    ensures var d := RateDb(db, taxi, user, score);
      && (forall x: Rating :: x.taxi != taxi || x.user != user ==> (x in d.ratings <==> x in db.ratings))
      && d.users == db.users && d.taxis == db.taxis && d.rides == db.rides
  {
    var d := RateDb(db, taxi, user, score);
    match FindRating(db.ratings, taxi, user)
    case Some(j) =>
      forall x: Rating | x.taxi != taxi || x.user != user ensures x in d.ratings <==> x in db.ratings {
        if x in d.ratings { MemberOfUpdate(db.ratings, j, d.ratings[j], x); }
        if x in db.ratings {
          var i :| 0 <= i < |db.ratings| && db.ratings[i] == x;
          assert d.ratings[i] == x;
        }
      }
    case None =>
  }

  /** Rating keeps the invariant. */
  lemma RateKeepsValid(db: Db, taxi: TaxiId, user: UserId, score: int)
    requires Valid(db) && taxi in TaxiIds(db.taxis) && user in UserIds(db.users)
    ensures Valid(RateDb(db, taxi, user, score))
  {
    var d := RateDb(db, taxi, user, score);
    match FindRating(db.ratings, taxi, user)
    case Some(j) =>
      forall x | x in d.ratings
        ensures x.taxi in TaxiIds(d.taxis) && x.user in UserIds(d.users) && x.id < d.nextRatingId
      {
        MemberOfUpdate(db.ratings, j, d.ratings[j], x);
        assert db.ratings[j] in db.ratings;
      }
    case None =>
      var n := Rating(db.nextRatingId, taxi, user, score);
      forall i, k | 0 <= i < k < |d.ratings|
        ensures d.ratings[i].id < d.ratings[k].id
        ensures d.ratings[i].taxi != d.ratings[k].taxi || d.ratings[i].user != d.ratings[k].user
      {
        if k == |db.ratings| { assert d.ratings[i] == db.ratings[i] && db.ratings[i] in db.ratings; }
      }
      forall x | x in d.ratings
        ensures x.taxi in TaxiIds(d.taxis) && x.user in UserIds(d.users) && x.id < d.nextRatingId
      {
        if x != n { assert x in db.ratings; }
      }
  }

  /** Rating again replaces the score: only the last rating of a user counts. */
  lemma RateTwice(db: Db, taxi: TaxiId, user: UserId, s1: int, s2: int)
    ensures RateDb(RateDb(db, taxi, user, s1), taxi, user, s2) == RateDb(db, taxi, user, s2)
  {
    var d1 := RateDb(db, taxi, user, s1);
    match FindRating(db.ratings, taxi, user)
    case Some(j) =>
      assert d1 == db.(ratings := db.ratings[j := db.ratings[j].(score := s1)]);
      FindRatingIgnoresScore(db.ratings, j, s1, taxi, user);
      assert d1.ratings[j := d1.ratings[j].(score := s2)] == db.ratings[j := db.ratings[j].(score := s2)];
    case None =>
      var n := |db.ratings|;
      var added := Rating(db.nextRatingId, taxi, user, s1);
      assert d1 == db.(ratings := db.ratings + [added], nextRatingId := db.nextRatingId + 1);
      FindRatingAppended(db.ratings, added);
      assert d1.ratings[n := d1.ratings[n].(score := s2)] == db.ratings + [Rating(db.nextRatingId, taxi, user, s2)];
  }

  /** A row appended for a pair that had none is where that pair is found. */
  lemma FindRatingAppended(ratings: seq<Rating>, x: Rating)
    requires FindRating(ratings, x.taxi, x.user).None?
    ensures FindRating(ratings + [x], x.taxi, x.user) == Some(|ratings|)
  {
    assert forall k :: 0 <= k < |ratings| ==> (ratings + [x])[k] == ratings[k];
  }

  /** Changing a score does not move any pair's row. */
  lemma FindRatingIgnoresScore(ratings: seq<Rating>, j: nat, score: int, taxi: TaxiId, user: UserId)
    requires j < |ratings|
    ensures FindRating(ratings[j := ratings[j].(score := score)], taxi, user) == FindRating(ratings, taxi, user)
  {
    var r := ratings[j := ratings[j].(score := score)];
    assert forall k :: 0 <= k < |r| ==> r[k].taxi == ratings[k].taxi && r[k].user == ratings[k].user;
  }

  // ---------------------------------------------------------------------
  // average_rating

  /** The body of the `average_rating` response. */
  datatype AverageReport = AverageReport(average: Option<real>, count: nat)

  /** `average_rating`: 404 for an unknown taxi; otherwise no average and a
      zero count without ratings, else the exact mean of the scores and
      their count (the source rounds the mean to two places). */
  function AverageRatingView(db: Db, id: TaxiId): (r: Result<AverageReport>)
    ensures r.Err? <==> id !in TaxiIds(db.taxis)
    ensures r.Err? ==> r.error == NotFound
    ensures r.Ok? ==> r.value.count == |RatingsOf(db, id)|
    ensures r.Ok? ==> (r.value.average.None? <==> r.value.count == 0)
    ensures r.Ok? && r.value.average.Some? ==>
      IsMean(r.value.average.value, SumScores(RatingsOf(db, id)), r.value.count)
  {
    match GetTaxi(db, id)
    case Err(e) => Err(e)
    case Ok(_) =>
      var rs := RatingsOf(db, id);
      if |rs| == 0 then Ok(AverageReport(None, 0))
      else Ok(AverageReport(Some(Mean(SumScores(rs), |rs|)), |rs|))
  }

  /** The action and the serializer's computed fields report the same
      average and count. */
  lemma AverageViewMatchesSerializer(db: Db, t: Taxi)
    requires t in db.taxis
    ensures AverageRatingView(db, t.id).Ok?
    ensures AverageRatingView(db, t.id).value.average == Represent(db, t).averageRating
    ensures AverageRatingView(db, t.id).value.count == Represent(db, t).ratingsCount
  {
    assert t.id in TaxiIds(db.taxis);
  }

  // ---------------------------------------------------------------------
  // update_location

  /** The statuses `update_location` treats as a ride under way. */
  predicate Active(s: RideStatus) {
    s == Accepted || s == InProgress || s == InRide
  }

  /** `taxi.taxi_rides.filter(status__in=[…]).first()`: the first ride, in
      key order, that this taxi drives and that is under way. */
  function ActiveRide(rides: seq<Ride>, taxi: TaxiId): (k: Option<nat>)
    ensures k.Some? ==> k.value < |rides| && rides[k.value].taxi == Some(taxi) && Active(rides[k.value].status)
    ensures k.Some? ==> forall j :: 0 <= j < k.value ==> !(rides[j].taxi == Some(taxi) && Active(rides[j].status))
    ensures k.None? ==> forall j :: 0 <= j < |rides| ==> !(rides[j].taxi == Some(taxi) && Active(rides[j].status))
  {
    IndexOf(rides, (r: Ride) => r.taxi == Some(taxi) && Active(r.status))
  }

  /** Why `update_location` refuses, in the order it checks: an unknown taxi,
      a caller who is not that taxi's driver, coordinates that do not parse. */
  function LocationRefusal(db: Db, caller: UserId, id: TaxiId, lat: Raw, lng: Raw): (e: Option<Failure>)
    ensures e == Some(NotFound) <==> id !in TaxiIds(db.taxis)
    ensures Valid(db) && id in TaxiIds(db.taxis) ==>
      (e == Some(Forbidden) <==> db.taxis[FindTaxi(db.taxis, id).value].driver != caller)
    ensures e.None? ==> ToFloat(lat).Some? && ToFloat(lng).Some?
    ensures e == Some(BadRequest) ==> ToFloat(lat).None? || ToFloat(lng).None?
    ensures e != Some(ServerError)
    ensures Valid(db) ==>
      (e.None? <==>
        && id in TaxiIds(db.taxis) && db.taxis[FindTaxi(db.taxis, id).value].driver == caller
        && ToFloat(lat).Some? && ToFloat(lng).Some?)
  {
    match FindTaxi(db.taxis, id)
    case None => Some(NotFound)
    case Some(k) =>
      if TaxiOfDriver(db.taxis, caller) != Some(k) then Some(Forbidden)
      else if ToFloat(lat).None? || ToFloat(lng).None? then Some(BadRequest)
      else None
  }

  /** The taxi at `k` moved to (lat, lng). */
  function MovedDb(db: Db, k: nat, lat: real, lng: real): Db
    requires k < |db.taxis|
  {
    db.(taxis := db.taxis[k := db.taxis[k].(lat := lat, lng := lng)])
  }

  /** Moving a taxi changes its coordinates only: the same taxis, the same
      drivers, and the invariant holds. */
  lemma MoveKeepsValid(db: Db, k: nat, lat: real, lng: real)
    requires Valid(db) && k < |db.taxis|
    ensures var d := MovedDb(db, k, lat, lng);
      Valid(d) && TaxiIds(d.taxis) == TaxiIds(db.taxis)
      && forall j :: 0 <= j < |d.taxis| ==> d.taxis[j].driver == db.taxis[j].driver
  {
    var d := MovedDb(db, k, lat, lng);
    TaxiIdsUpdate(db.taxis, k, d.taxis[k]);
    forall x | x in d.taxis ensures x.driver in UserIds(d.users) && x.id < d.nextTaxiId {
      MemberOfUpdate(db.taxis, k, d.taxis[k], x);
      assert db.taxis[k] in db.taxis;
    }
  }

  /** The message for the driver's own group. The taxi has no `updated_at`,
      so `ts` is null. */
  function DriverLocationEvent(driver: UserId, lat: real, lng: real): Event {
    Event("driver_location", JObj(map[
      "driver_id" := JNum(driver as real), "lat" := JNum(lat), "lng" := JNum(lng), "ts" := JNull]))
  }

  /** The message for the group of the taxi's ride under way. */
  function RideLocationEvent(taxi: TaxiId, lat: real, lng: real): Event {
    Event("ride_event", JObj(map[
      "action" := JStr("location"),
      "data" := JObj(map["lat" := JNum(lat), "lng" := JNum(lng), "taxi_id" := JNum(taxi as real)])]))
  }

  /** What a successful `update_location` sends: always the driver message,
      then the ride message exactly when the taxi has a ride under way. */
  function LocationBroadcasts(db: Db, k: nat, lat: real, lng: real): (ps: seq<Publication>)
    requires k < |db.taxis|
    ensures 1 <= |ps| <= 2
    ensures ps[0] == Publication(DriverGroup(NatToDigits(db.taxis[k].driver)),
                                 DriverLocationEvent(db.taxis[k].driver, lat, lng))
    ensures |ps| == 2 <==> ActiveRide(db.rides, db.taxis[k].id).Some?
    ensures |ps| == 2 ==>
      ps[1] == Publication(RideGroup(NatToDigits(db.rides[ActiveRide(db.rides, db.taxis[k].id).value].id)),
                           RideLocationEvent(db.taxis[k].id, lat, lng))
  {
    var t := db.taxis[k];
    var first := Publication(DriverGroup(NatToDigits(t.driver)), DriverLocationEvent(t.driver, lat, lng));
    match ActiveRide(db.rides, t.id)
    case None => [first]
    case Some(i) => [first, Publication(RideGroup(NatToDigits(db.rides[i].id)), RideLocationEvent(t.id, lat, lng))]
  }

  /** The driver message goes to a driver group and the ride message to a
      ride group, each named after its own key. */
  lemma BroadcastGroupsDistinct(db: Db, k: nat, lat: real, lng: real)
    requires k < |db.taxis| && |LocationBroadcasts(db, k, lat, lng)| == 2
    ensures LocationBroadcasts(db, k, lat, lng)[0].group != LocationBroadcasts(db, k, lat, lng)[1].group
  {
    var ps := LocationBroadcasts(db, k, lat, lng);
    var i := ActiveRide(db.rides, db.taxis[k].id).value;
    GroupKindsDisjoint(NatToDigits(db.rides[i].id), NatToDigits(db.taxis[k].driver));
  }

  // ---------------------------------------------------------------------
  // nearby_taxis and nearby_rides

  /** `nearby_taxis`: 400 unless both coordinates parse; otherwise exactly
      the available taxis within one kilometre, in key order. */
  method NearbyTaxis(db: Db, lat: Raw, lng: Raw, dist: Metric) returns (r: Result<seq<Taxi>>)
    ensures r.Err? <==> ToFloat(lat).None? || ToFloat(lng).None?
    ensures r.Err? ==> r.error == BadRequest
    ensures r.Ok? ==> forall t :: t in r.value <==>
      t in db.taxis && t.available && dist(ToFloat(lat).value, ToFloat(lng).value, t.lat, t.lng) <= NearbyTaxiKm
    ensures r.Ok? && TaxisOrdered(db.taxis) ==> TaxisOrdered(r.value)
  {
    if ToFloat(lat).None? || ToFloat(lng).None? {
      return Err(BadRequest);
    }
    var la, ln := ToFloat(lat).value, ToFloat(lng).value;
    var near := (t: Taxi) => t.available && dist(la, ln, t.lat, t.lng) <= NearbyTaxiKm;
    var nearby: seq<Taxi> := [];
    var i := 0;
    while i < |db.taxis|
      invariant 0 <= i <= |db.taxis|
      invariant nearby == Filter(db.taxis[..i], near)
    {
      FilterSnoc(db.taxis, i, near);
      nearby := nearby + (if near(db.taxis[i]) then [db.taxis[i]] else []);
      i := i + 1;
    }
    assert db.taxis[..i] == db.taxis;
    assert nearby == Filter(db.taxis, near);
    if TaxisOrdered(db.taxis) {
      FilterPairwise(db.taxis, near, (a: Taxi, b: Taxi) => a.id < b.id);
    }
    return Ok(nearby);
  }

  /** The radius of `nearby_rides`: 500 when absent, else its `float()`. */
  function Radius(radius: Raw): (r: Option<real>)
    ensures radius.Absent? ==> r == Some(DefaultRadiusM)
    ensures !radius.Absent? ==> r == ToFloat(radius)
  {
    if radius.Absent? then Some(DefaultRadiusM) else ToFloat(radius)
  }

  /** `nearby_rides`: 400 unless the coordinates and the radius parse;
      otherwise exactly the shared rides that start within the radius, in
      key order. */
  method NearbyRides(db: Db, lat: Raw, lng: Raw, radius: Raw, dist: Metric) returns (r: Result<seq<Ride>>)
    ensures r.Err? <==> ToFloat(lat).None? || ToFloat(lng).None? || Radius(radius).None?
    ensures r.Err? ==> r.error == BadRequest
    ensures r.Ok? ==> forall x :: x in r.value <==>
      x in db.rides && x.status == Shared
      && dist(ToFloat(lat).value, ToFloat(lng).value, x.startLat, x.startLng) <= Radius(radius).value
    ensures r.Ok? && RidesOrdered(db.rides) ==> RidesOrdered(r.value)
  {
    if ToFloat(lat).None? || ToFloat(lng).None? || Radius(radius).None? {
      return Err(BadRequest);
    }
    var la, ln, rad := ToFloat(lat).value, ToFloat(lng).value, Radius(radius).value;
    var near := (x: Ride) => x.status == Shared && dist(la, ln, x.startLat, x.startLng) <= rad;
    var rides: seq<Ride> := [];
    var i := 0;
    while i < |db.rides|
      invariant 0 <= i <= |db.rides|
      invariant rides == Filter(db.rides[..i], near)
    {
      FilterSnoc(db.rides, i, near);
      rides := rides + (if near(db.rides[i]) then [db.rides[i]] else []);
      i := i + 1;
    }
    assert db.rides[..i] == db.rides;
    assert rides == Filter(db.rides, near);
    if RidesOrdered(db.rides) {
      FilterPairwise(db.rides, near, (a: Ride, b: Ride) => a.id < b.id);
    }
    return Ok(rides);
  }

  // ---------------------------------------------------------------------
  // perform_create

  /** The distance from (lat, lng) to the taxi at `k`. */
  function DistanceTo(taxis: seq<Taxi>, k: nat, lat: real, lng: real, dist: Metric): real
    requires k < |taxis|
  {
    dist(lat, lng, taxis[k].lat, taxis[k].lng)
  }

  /** The taxi at `k` is available, no available taxi is nearer, and every
      available taxi before it is strictly farther: the first minimum. */
  predicate IsFirstNearest(taxis: seq<Taxi>, lat: real, lng: real, dist: Metric, k: nat) {
    && k < |taxis| && taxis[k].available
    && (forall j :: 0 <= j < |taxis| && taxis[j].available ==>
          DistanceTo(taxis, k, lat, lng, dist) <= DistanceTo(taxis, j, lat, lng, dist))
    && (forall j :: 0 <= j < k && taxis[j].available ==>
          DistanceTo(taxis, k, lat, lng, dist) < DistanceTo(taxis, j, lat, lng, dist))
  }

  /** At most one taxi is the first minimum, so the choice is determined. */
  lemma FirstNearestUnique(taxis: seq<Taxi>, lat: real, lng: real, dist: Metric, k1: nat, k2: nat)
    requires IsFirstNearest(taxis, lat, lng, dist, k1) && IsFirstNearest(taxis, lat, lng, dist, k2)
    ensures k1 == k2
  {
  }

  /** The search loop of `perform_create`: over the available taxis in key
      order, a taxi replaces the best so far only when strictly nearer. */
  method NearestAvailableTaxi(taxis: seq<Taxi>, lat: real, lng: real, dist: Metric) returns (k: Option<nat>)
    ensures k.None? <==> forall j :: 0 <= j < |taxis| ==> !taxis[j].available
    ensures k.Some? ==> IsFirstNearest(taxis, lat, lng, dist, k.value)
  {
    k := None;
    var minDistance: Option<real> := None;  // None stands for float("inf")
    var i := 0;
    while i < |taxis|
      invariant 0 <= i <= |taxis|
      invariant k.None? <==> minDistance.None?
      invariant k.None? <==> forall j :: 0 <= j < i ==> !taxis[j].available
      invariant k.Some? ==> k.value < i && taxis[k.value].available
      invariant k.Some? ==> minDistance.value == DistanceTo(taxis, k.value, lat, lng, dist)
      invariant k.Some? ==> forall j :: 0 <= j < i && taxis[j].available ==>
        minDistance.value <= DistanceTo(taxis, j, lat, lng, dist)
      invariant k.Some? ==> forall j :: 0 <= j < k.value && taxis[j].available ==>
        minDistance.value < DistanceTo(taxis, j, lat, lng, dist)
    {
      if taxis[i].available {
        var distance := DistanceTo(taxis, i, lat, lng, dist);
        if minDistance.None? || distance < minDistance.value {
          minDistance := Some(distance);
          k := Some(i);
        }
      }
      i := i + 1;
    }
  }

  /** A ride as submitted, before the serializer (`fields = "__all__"`)
      checks it: the passenger, taxi and shared passenger keys (None when
      absent or null), the coordinates and price as sent, the status choice
      (None when absent) and the pending requesters' keys. */
  datatype RideRequest = RideRequest(
    passenger: Option<UserId>,
    taxi: Option<TaxiId>,
    startLat: Raw, startLng: Raw, endLat: Raw, endLng: Raw,
    status: Option<string>,
    price: Raw,
    sharedPassenger: Option<UserId>,
    pendingRequests: set<UserId>)

  /** The serializer's field validation: the passenger is required and must
      name a user (though `perform_create` then replaces it), the four
      coordinates must be numbers, a submitted status must be one of the
      choices and a submitted price a number, and a submitted taxi, shared
      passenger or pending requester must exist. */
  predicate RideFieldsValid(db: Db, req: RideRequest) {
    && req.passenger.Some? && req.passenger.value in UserIds(db.users)
    && (req.taxi.Some? ==> req.taxi.value in TaxiIds(db.taxis))
    && ToFloat(req.startLat).Some? && ToFloat(req.startLng).Some?
    && ToFloat(req.endLat).Some? && ToFloat(req.endLng).Some?
    && (req.status.Some? ==> ParseStatus(req.status.value).Some?)
    && (!req.price.Absent? ==> ToFloat(req.price).Some?)
    && (req.sharedPassenger.Some? ==> req.sharedPassenger.value in UserIds(db.users))
    && req.pendingRequests <= UserIds(db.users)
  }

  /** Adding a ride for existing rows, under the next key, keeps the invariant. */
  lemma AddRideKeepsValid(db: Db, ride: Ride)
    requires Valid(db) && ride.id == db.nextRideId
    requires RideRefsOk(ride, TaxiIds(db.taxis), UserIds(db.users))
    ensures Valid(db.(rides := db.rides + [ride], nextRideId := db.nextRideId + 1))
  {
    var rides := db.rides + [ride];
    forall i, j | 0 <= i < j < |rides| ensures rides[i].id < rides[j].id {
      if j == |db.rides| { assert rides[i] == db.rides[i] && db.rides[i] in db.rides; }
    }
    forall x | x in rides ensures RideRefsOk(x, TaxiIds(db.taxis), UserIds(db.users)) && x.id < db.nextRideId + 1 {
      if x != ride { assert x in db.rides; }
    }
  }

  // ---------------------------------------------------------------------
  // request_join, check_requests, respond_join, accept_by_taxi

  /** Changing one ride, keeping its key and pointing only at existing rows,
      keeps the invariant. */
  lemma ReplaceRideKeepsValid(db: Db, k: nat, ride: Ride)
    requires Valid(db) && k < |db.rides| && ride.id == db.rides[k].id
    requires RideRefsOk(ride, TaxiIds(db.taxis), UserIds(db.users))
    ensures Valid(db.(rides := db.rides[k := ride]))
  {
    forall x | x in db.rides[k := ride]
      ensures RideRefsOk(x, TaxiIds(db.taxis), UserIds(db.users)) && x.id < db.nextRideId
    {
      MemberOfUpdate(db.rides, k, ride, x);
      assert db.rides[k] in db.rides;
    }
  }

  /** Why `request_join` refuses: drivers may not join, and a ride that
      already has its shared passenger takes no more requests. */
  function JoinRefusal(ride: Ride, caller: User): (e: Option<Failure>)
    ensures e == Some(Forbidden) <==> caller.isDriver
    ensures e == Some(BadRequest) <==> !caller.isDriver && ride.sharedPassenger.Some?
    ensures e.None? <==> !caller.isDriver && ride.sharedPassenger.None?
  {
    if caller.isDriver then Some(Forbidden)
    else if ride.sharedPassenger.Some? then Some(BadRequest)
    else None
  }

  /** `ride.pending_requests.add(user)`. */
  function JoinRequested(ride: Ride, user: UserId): (r: Ride)
    ensures r.pendingRequests == ride.pendingRequests + {user}
    ensures r == ride.(pendingRequests := r.pendingRequests)
  {
    ride.(pendingRequests := ride.pendingRequests + {user})
  }

  /** Asking twice is asking once, and an accepted request still refuses
      nobody new. */
  lemma JoinRequestIdempotent(ride: Ride, caller: User)
    ensures JoinRequested(JoinRequested(ride, caller.id), caller.id) == JoinRequested(ride, caller.id)
    ensures JoinRefusal(JoinRequested(ride, caller.id), caller) == JoinRefusal(ride, caller)
  {
  }

  /** One entry of the `check_requests` response. */
  datatype PendingEntry = PendingEntry(id: UserId, username: string)

  /** `check_requests`: 404 for an unknown ride, else every user with a
      pending request, by key and name. No caller check is made. */
  function CheckRequests(db: Db, id: RideId): (r: Result<set<PendingEntry>>)
    ensures r.Err? <==> GetRide(db, id).Err?
    ensures r.Err? ==> r.error == NotFound
    ensures r.Ok? ==> forall e :: e in r.value <==>
      exists u :: u in db.users && u.id in db.rides[GetRide(db, id).value].pendingRequests && e == PendingEntry(u.id, u.username)
  {
    match GetRide(db, id)
    case Err(e) => Err(e)
    case Ok(k) => Ok(set u | u in db.users && u.id in db.rides[k].pendingRequests :: PendingEntry(u.id, u.username))
  }

  /** Under the invariant every pending key is a user, so the response lists
      exactly the pending keys. */
  lemma CheckRequestsListsPending(db: Db, id: RideId)
    requires Valid(db) && CheckRequests(db, id).Ok?
    ensures (set e | e in CheckRequests(db, id).value :: e.id) == db.rides[GetRide(db, id).value].pendingRequests
  {
    var k := GetRide(db, id).value;
    var r := CheckRequests(db, id).value;
    assert db.rides[k] in db.rides;
    forall x | x in db.rides[k].pendingRequests ensures x in (set e | e in r :: e.id) {
      assert x in UserIds(db.users);
      var u :| u in db.users && u.id == x;
      assert PendingEntry(u.id, u.username) in r;
    }
  }

  /** Why `respond_join` refuses: only the ride's passenger may respond, and
      the requester must be a user. */
  function RespondRefusal(db: Db, ride: Ride, caller: User, requester: Option<UserId>): (e: Option<Failure>)
    ensures e == Some(Forbidden) <==> ride.passenger != caller.id
    ensures e == Some(NotFound) <==>
      ride.passenger == caller.id && (requester.None? || requester.value !in UserIds(db.users))
    ensures e.None? <==>
      ride.passenger == caller.id && requester.Some? && requester.value in UserIds(db.users)
  {
    if ride.passenger != caller.id then Some(Forbidden)
    else if requester.None? || FindUser(db.users, requester.value).None? then Some(NotFound)
    else None
  }

  /** The owner's answer: `accept` makes the requester the shared passenger,
      puts the ride back to waiting and drops every pending request;
      `refuse` drops that one request; any other action changes nothing. */
  function Respond(ride: Ride, action: Json, requester: UserId): (r: Ride)
    ensures r.id == ride.id && r.passenger == ride.passenger && r.taxi == ride.taxi && r.price == ride.price
    ensures r.startLat == ride.startLat && r.startLng == ride.startLng
    ensures r.endLat == ride.endLat && r.endLng == ride.endLng
    ensures action == JStr("accept") ==>
      r.sharedPassenger == Some(requester) && r.status == Waiting && r.pendingRequests == {}
    ensures action == JStr("refuse") ==>
      r.sharedPassenger == ride.sharedPassenger && r.status == ride.status
      && r.pendingRequests == ride.pendingRequests - {requester}
    ensures action != JStr("accept") && action != JStr("refuse") ==> r == ride
  {
    if action == JStr("accept") then
      ride.(sharedPassenger := Some(requester), status := DefaultStatus, pendingRequests := {})
    else if action == JStr("refuse") then
      ride.(pendingRequests := ride.pendingRequests - {requester})
    else ride
  }

  /** After an accept, every later join request is refused. */
  lemma AcceptClosesJoins(ride: Ride, requester: UserId, caller: User)
    ensures JoinRefusal(Respond(ride, JStr("accept"), requester), caller).Some?
  {
  }

  /** A refusal leaves every other user's request where it was. */
  lemma RefuseKeepsOthers(ride: Ride, requester: UserId, u: UserId)
    requires u != requester
    ensures u in Respond(ride, JStr("refuse"), requester).pendingRequests <==> u in ride.pendingRequests
  {
  }

  /** The notification `accept_by_taxi` sends. */
  function AcceptNotification(ride: Ride, taxi: TaxiId): Event {
    Event("ride_notification", JObj(map[
      "ride_id" := JNum(ride.id as real),
      "status" := JStr(Accepted.Code()),
      "taxi_id" := JNum(taxi as real),
      "msg" := JStr("Taxi accepté!")]))
  }

  /** The notification goes to the group named after the passenger's key,
      which is the ride's own group only when the two keys coincide. */
  lemma AcceptNotificationGroup(ride: Ride)
    ensures RideGroup(NatToDigits(ride.passenger)) == RideGroup(NatToDigits(ride.id)) <==> ride.passenger == ride.id
  {
    GroupNameInjective(NatToDigits(ride.passenger), NatToDigits(ride.id));
    NatToDigitsInjective(ride.passenger, ride.id);
  }

  // ---------------------------------------------------------------------
  // Taxi create, update and destroy, as the view set's defaults run them
  // with this permission class and serializer.

  /** Why creating a taxi fails: the view-level permission, then field
      validation (the plate is required; None is an absent plate), then the
      database's not-null column for a missing driver. */
  function CreateTaxiRefusal(db: Db, caller: User, plate: Option<string>, driver: DriverField): (e: Option<Failure>)
    ensures e == Some(Forbidden) <==> !HasPermission("POST", caller)
    ensures e == Some(BadRequest) <==>
      HasPermission("POST", caller) && (plate.None? || !PlateValid(plate.value) || !DriverFieldValid(db, driver))
    ensures e == Some(ServerError) <==>
      HasPermission("POST", caller) && plate.Some? && PlateValid(plate.value) && !driver.DriverKey?
    ensures e.None? <==> HasPermission("POST", caller) && plate.Some? && PlateValid(plate.value)
                         && driver.DriverKey? && EligibleDriver(db, driver.user)
  {
    if !HasPermission("POST", caller) then Some(Forbidden)
    else if plate.None? || !PlateValid(plate.value) || !DriverFieldValid(db, driver) then Some(BadRequest)
    else if !driver.DriverKey? then Some(ServerError)
    else None
  }

  /** Why updating a taxi fails: the view-level permission, an unknown taxi,
      then field validation (a full update needs the plate). Whether the
      caller owns the taxi is never asked. */
  function UpdateTaxiRefusal(db: Db, caller: User, verb: string, id: TaxiId, c: TaxiChanges): (e: Option<Failure>)
    requires verb == "PUT" || verb == "PATCH"
    ensures e == Some(Forbidden) <==> !HasPermission(verb, caller)
    ensures e == Some(NotFound) <==> HasPermission(verb, caller) && id !in TaxiIds(db.taxis)
    ensures e != Some(ServerError)
    ensures e.None? <==>
      && HasPermission(verb, caller) && id in TaxiIds(db.taxis)
      && (verb == "PUT" ==> c.licensePlate.Some?)
      && (c.licensePlate.Some? ==> PlateValid(c.licensePlate.value))
      && DriverFieldValid(db, c.driver)
  {
    if !HasPermission(verb, caller) then Some(Forbidden)
    else if id !in TaxiIds(db.taxis) then Some(NotFound)
    else if (verb == "PUT" && c.licensePlate.None?)
         || (c.licensePlate.Some? && !PlateValid(c.licensePlate.value))
         || !DriverFieldValid(db, c.driver) then Some(BadRequest)
    else None
  }

  /** Because the view's own `get_object` never asks the object-level check,
      a driver may update a taxi that is not theirs, though
      `has_object_permission` refuses them. */
  lemma UpdateSkipsObjectPermission(db: Db, caller: User, id: TaxiId, plate: string)
    requires Valid(db) && caller.isDriver && !caller.isStaff
    requires id in TaxiIds(db.taxis) && db.taxis[FindTaxi(db.taxis, id).value].driver != caller.id
    requires PlateValid(plate)
    ensures UpdateTaxiRefusal(db, caller, "PATCH", id, TaxiChanges(Omitted, Some(plate), None, None, None)).None?
    ensures !HasObjectPermission("PATCH", caller, db.taxis[FindTaxi(db.taxis, id).value].driver)
  {
  }

  /** Writing an update into the taxi at `k` keeps the invariant. */
  lemma UpdateKeepsValid(db: Db, k: nat, c: TaxiChanges)
    requires Valid(db) && k < |db.taxis|
    ensures Valid(db.(taxis := db.taxis[k := ApplyUpdate(db.taxis[k], c)]))
  {
    var t := ApplyUpdate(db.taxis[k], c);
    TaxiIdsUpdate(db.taxis, k, t);
    forall x | x in db.taxis[k := t] ensures x.driver in UserIds(db.users) && x.id < db.nextTaxiId {
      MemberOfUpdate(db.taxis, k, t, x);
      assert db.taxis[k] in db.taxis;
    }
  }

  // ---------------------------------------------------------------------
  // The database behind the views.

  class Store {
    var db: Db

    predicate Invariant()
      reads this
    {
      Valid(db)
    }

    /** A database holding the given accounts and nothing else. */
    constructor (users: seq<User>)
      requires UsersOrdered(users)
      ensures db == Db(users, [], [], [], 1, 1, 1)
      ensures Invariant()
    {
      db := Db(users, [], [], [], 1, 1, 1);
    }

    /** `rate`. */
    method Rate(caller: User, id: TaxiId, score: Option<int>) returns (r: Result<Rating>)
      requires Invariant() && caller in db.users
      modifies this
      ensures Invariant()
      ensures id !in TaxiIds(old(db).taxis) ==> r == Err(NotFound) && db == old(db)
      ensures id in TaxiIds(old(db).taxis) && !ScoreAccepted(score) ==> r == Err(BadRequest) && db == old(db)
      ensures id in TaxiIds(old(db).taxis) && ScoreAccepted(score) ==>
        db == RateDb(old(db), id, caller.id, score.value)
        && r.Ok? && r.value in db.ratings
        && r.value.taxi == id && r.value.user == caller.id && r.value.score == score.value
    {
      var found := GetTaxi(db, id);
      if found.Err? {
        return Err(found.error);
      }
      if !ScoreAccepted(score) {
        return Err(BadRequest);
      }
      assert caller.id in UserIds(db.users);
      RateKeepsValid(db, id, caller.id, score.value);
      RateSetsScore(db, id, caller.id, score.value);
      db := RateDb(db, id, caller.id, score.value);
      var j := FindRating(db.ratings, id, caller.id).value;
      return Ok(db.ratings[j]);
    }

    /** `update_location`. */
    method UpdateLocation(caller: User, id: TaxiId, lat: Raw, lng: Raw, layer: ChannelLayer) returns (r: Result<string>)
      requires Invariant() && caller in db.users
      modifies this, layer
      ensures Invariant()
      ensures layer.groups == old(layer.groups)
      ensures r.Err? <==> LocationRefusal(old(db), caller.id, id, lat, lng).Some?
      ensures r.Err? ==>
        && r.error == LocationRefusal(old(db), caller.id, id, lat, lng).value
        && db == old(db) && layer.published == old(layer.published)
      ensures r.Ok? ==>
        var k := FindTaxi(old(db).taxis, id).value;
        && r.value == "ok"
        && db == MovedDb(old(db), k, ToFloat(lat).value, ToFloat(lng).value)
        && layer.published == old(layer.published) + LocationBroadcasts(old(db), k, ToFloat(lat).value, ToFloat(lng).value)
    {
      var refusal := LocationRefusal(db, caller.id, id, lat, lng);
      if refusal.Some? {
        return Err(refusal.value);
      }
      var k := FindTaxi(db.taxis, id).value;
      var la, ln := ToFloat(lat).value, ToFloat(lng).value;
      ghost var before := db;
      MoveKeepsValid(db, k, la, ln);
      db := MovedDb(db, k, la, ln);
      var t := db.taxis[k];
      layer.GroupSend(DriverGroup(NatToDigits(t.driver)), DriverLocationEvent(t.driver, la, ln));
      var active := ActiveRide(db.rides, t.id);
      if active.Some? {
        layer.GroupSend(RideGroup(NatToDigits(db.rides[active.value].id)), RideLocationEvent(t.id, la, ln));
      }
      assert layer.published == old(layer.published) + LocationBroadcasts(before, k, la, ln);
      return Ok("ok");
    }

    /** Creating a ride: the serializer's validation, then `perform_create`,
        which saves the validated fields with the caller as passenger and
        the first nearest available taxi (or none) as taxi. */
    method CreateRide(caller: User, req: RideRequest, dist: Metric) returns (r: Result<Ride>)
      requires Invariant() && caller in db.users
      modifies this
      ensures Invariant()
      ensures r.Err? <==> !RideFieldsValid(old(db), req)
      ensures r.Err? ==> r.error == BadRequest && db == old(db)
      ensures r.Ok? ==> db == old(db).(rides := old(db).rides + [r.value], nextRideId := old(db).nextRideId + 1)
      ensures r.Ok? ==>
        && r.value.id == old(db).nextRideId && r.value.passenger == caller.id
        && r.value.startLat == ToFloat(req.startLat).value && r.value.startLng == ToFloat(req.startLng).value
        && r.value.endLat == ToFloat(req.endLat).value && r.value.endLng == ToFloat(req.endLng).value
        && r.value.status == (if req.status.Some? then ParseStatus(req.status.value).value else DefaultStatus)
        && r.value.status.Code() == (if req.status.Some? then req.status.value else DefaultStatus.Code())
        && r.value.price == (if req.price.Absent? then DefaultPrice else ToFloat(req.price).value)
        && r.value.sharedPassenger == req.sharedPassenger && r.value.pendingRequests == req.pendingRequests
      ensures r.Ok? ==> (r.value.taxi.None? <==>
        !(Truthy(req.startLat) && Truthy(req.startLng))
        || forall j :: 0 <= j < |old(db).taxis| ==> !old(db).taxis[j].available)
      ensures r.Ok? && r.value.taxi.Some? ==> exists k: nat ::
        IsFirstNearest(old(db).taxis, r.value.startLat, r.value.startLng, dist, k)
        && old(db).taxis[k].id == r.value.taxi.value
    {
      if !RideFieldsValid(db, req) {
        return Err(BadRequest);
      }
      var startLat, startLng := ToFloat(req.startLat).value, ToFloat(req.startLng).value;
      var nearest: Option<TaxiId> := None;
      if Truthy(req.startLat) && Truthy(req.startLng) {
        var k := NearestAvailableTaxi(db.taxis, startLat, startLng, dist);
        if k.Some? {
          nearest := Some(db.taxis[k.value].id);
          assert db.taxis[k.value] in db.taxis;
        }
      }
      var ride := Ride(db.nextRideId, caller.id, nearest,
        startLat, startLng, ToFloat(req.endLat).value, ToFloat(req.endLng).value,
        if req.status.Some? then ParseStatus(req.status.value).value else DefaultStatus,
        if req.price.Absent? then DefaultPrice else ToFloat(req.price).value,
        req.sharedPassenger, req.pendingRequests);
      AddRideKeepsValid(db, ride);
      db := db.(rides := db.rides + [ride], nextRideId := db.nextRideId + 1);
      return Ok(ride);
    }

    /** `request_join`. */
    method RequestJoin(caller: User, id: RideId) returns (r: Result<string>)
      requires Invariant() && caller in db.users
      modifies this
      ensures Invariant()
      ensures GetRide(old(db), id).Err? ==> r == Err(NotFound) && db == old(db)
      ensures GetRide(old(db), id).Ok? ==>
        var k := GetRide(old(db), id).value;
        var ride := old(db).rides[k];
        && (JoinRefusal(ride, caller).Some? ==> r == Err(JoinRefusal(ride, caller).value) && db == old(db))
        && (JoinRefusal(ride, caller).None? ==>
              r == Ok("request_sent") && db == old(db).(rides := old(db).rides[k := JoinRequested(ride, caller.id)]))
    {
      var found := GetRide(db, id);
      if found.Err? {
        return Err(found.error);
      }
      var k := found.value;
      var refusal := JoinRefusal(db.rides[k], caller);
      if refusal.Some? {
        return Err(refusal.value);
      }
      var ride := JoinRequested(db.rides[k], caller.id);
      assert db.rides[k] in db.rides && caller.id in UserIds(db.users);
      ReplaceRideKeepsValid(db, k, ride);
      db := db.(rides := db.rides[k := ride]);
      return Ok("request_sent");
    }

    /** `respond_join`: answers with the action it was given. */
    method RespondJoin(caller: User, id: RideId, action: Json, requester: Option<UserId>) returns (r: Result<Json>)
      requires Invariant() && caller in db.users
      modifies this
      ensures Invariant()
      ensures GetRide(old(db), id).Err? ==> r == Err(NotFound) && db == old(db)
      ensures GetRide(old(db), id).Ok? ==>
        var k := GetRide(old(db), id).value;
        var ride := old(db).rides[k];
        var e := RespondRefusal(old(db), ride, caller, requester);
        && (e.Some? ==> r == Err(e.value) && db == old(db))
        && (e.None? ==>
              r == Ok(action) && db == old(db).(rides := old(db).rides[k := Respond(ride, action, requester.value)]))
    {
      var found := GetRide(db, id);
      if found.Err? {
        return Err(found.error);
      }
      var k := found.value;
      var refusal := RespondRefusal(db, db.rides[k], caller, requester);
      if refusal.Some? {
        return Err(refusal.value);
      }
      var ride := Respond(db.rides[k], action, requester.value);
      assert db.rides[k] in db.rides;
      ReplaceRideKeepsValid(db, k, ride);
      db := db.(rides := db.rides[k := ride]);
      return Ok(action);
    }

    /** `accept_by_taxi`: whatever the ride's status was. */
    method AcceptByTaxi(caller: User, id: RideId, layer: ChannelLayer) returns (r: Result<Ride>)
      requires Invariant() && caller in db.users
      modifies this, layer
      ensures Invariant()
      ensures layer.groups == old(layer.groups)
      ensures GetRide(old(db), id).Err? ==>
        r == Err(NotFound) && db == old(db) && layer.published == old(layer.published)
      ensures GetRide(old(db), id).Ok? && TaxiOfDriver(old(db).taxis, caller.id).None? ==>
        r == Err(Forbidden) && db == old(db) && layer.published == old(layer.published)
      ensures GetRide(old(db), id).Ok? && TaxiOfDriver(old(db).taxis, caller.id).Some? ==>
        var k := GetRide(old(db), id).value;
        var taxi := old(db).taxis[TaxiOfDriver(old(db).taxis, caller.id).value];
        && taxi.driver == caller.id
        && r == Ok(old(db).rides[k].(taxi := Some(taxi.id), status := Accepted))
        && db == old(db).(rides := old(db).rides[k := r.value])
        && layer.published == old(layer.published) +
             [Publication(RideGroup(NatToDigits(r.value.passenger)), AcceptNotification(r.value, taxi.id))]
    {
      var found := GetRide(db, id);
      if found.Err? {
        return Err(found.error);
      }
      var k := found.value;
      var own := TaxiOfDriver(db.taxis, caller.id);
      if own.None? {
        return Err(Forbidden);
      }
      var taxi := db.taxis[own.value];
      var ride := db.rides[k].(taxi := Some(taxi.id), status := Accepted);
      assert db.rides[k] in db.rides && taxi in db.taxis;
      ReplaceRideKeepsValid(db, k, ride);
      db := db.(rides := db.rides[k := ride]);
      layer.GroupSend(RideGroup(NatToDigits(ride.passenger)), AcceptNotification(ride, taxi.id));
      return Ok(ride);
    }

    /** Creating a taxi through the taxi view set. */
    method CreateTaxi(caller: User, plate: Option<string>, driver: DriverField,
                      lat: Option<real>, lng: Option<real>, available: Option<bool>) returns (r: Result<Taxi>)
      requires Invariant() && caller in db.users
      modifies this
      ensures Invariant()
      ensures r.Err? <==> CreateTaxiRefusal(old(db), caller, plate, driver).Some?
      ensures r.Err? ==> r.error == CreateTaxiRefusal(old(db), caller, plate, driver).value && db == old(db)
      ensures r.Ok? ==>
        && r.value == Taxi(old(db).nextTaxiId, driver.user, Strip(plate.value),
             if lat.Some? then lat.value else DefaultLat,
             if lng.Some? then lng.value else DefaultLng,
             if available.Some? then available.value else DefaultAvailable)
        && db == old(db).(taxis := old(db).taxis + [r.value], nextTaxiId := old(db).nextTaxiId + 1)
    {
      var refusal := CreateTaxiRefusal(db, caller, plate, driver);
      if refusal.Some? {
        return Err(refusal.value);
      }
      var t := Taxi(db.nextTaxiId, driver.user, Strip(plate.value),
        if lat.Some? then lat.value else DefaultLat,
        if lng.Some? then lng.value else DefaultLng,
        if available.Some? then available.value else DefaultAvailable);
      EligibleDriverKeepsValid(db, driver.user, t.licensePlate, t.lat, t.lng, t.available);
      db := db.(taxis := db.taxis + [t], nextTaxiId := db.nextTaxiId + 1);
      return Ok(t);
    }

    /** Updating a taxi through the taxi view set (`PUT` or `PATCH`); a
        submitted plate is stored stripped. */
    method UpdateTaxi(caller: User, verb: string, id: TaxiId, c: TaxiChanges) returns (r: Result<Taxi>)
      requires Invariant() && caller in db.users
      requires verb == "PUT" || verb == "PATCH"
      modifies this
      ensures Invariant()
      ensures r.Err? <==> UpdateTaxiRefusal(old(db), caller, verb, id, c).Some?
      ensures r.Err? ==> r.error == UpdateTaxiRefusal(old(db), caller, verb, id, c).value && db == old(db)
      ensures r.Ok? ==>
        var k := FindTaxi(old(db).taxis, id).value;
        && r.value == ApplyUpdate(old(db).taxis[k], Cleaned(c))
        && r.value.driver == old(db).taxis[k].driver
        && db == old(db).(taxis := old(db).taxis[k := r.value])
    {
      var refusal := UpdateTaxiRefusal(db, caller, verb, id, c);
      if refusal.Some? {
        return Err(refusal.value);
      }
      var k := FindTaxi(db.taxis, id).value;
      var t := ApplyUpdate(db.taxis[k], Cleaned(c));
      UpdateKeepsValid(db, k, Cleaned(c));
      db := db.(taxis := db.taxis[k := t]);
      return Ok(t);
    }

    /** Deleting a taxi through the taxi view set: its ratings go with it and
        its rides lose their taxi. */
    method DestroyTaxi(caller: User, id: TaxiId) returns (r: Result<TaxiId>)
      requires Invariant() && caller in db.users
      modifies this
      ensures Invariant()
      ensures !HasPermission("DELETE", caller) ==> r == Err(Forbidden) && db == old(db)
      ensures HasPermission("DELETE", caller) && id !in TaxiIds(old(db).taxis) ==> r == Err(NotFound) && db == old(db)
      ensures HasPermission("DELETE", caller) && id in TaxiIds(old(db).taxis) ==>
        r == Ok(id) && db == DeleteTaxi(old(db), id)
    {
      if !HasPermission("DELETE", caller) {
        return Err(Forbidden);
      }
      var found := GetTaxi(db, id);
      if found.Err? {
        return Err(found.error);
      }
      DeleteTaxiValid(db, id);
      db := DeleteTaxi(db, id);
      return Ok(id);
    }
  }
}

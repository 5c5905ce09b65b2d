/** The taxi app's tables: users (the `is_driver` flag of the accounts app
    folded in), taxis, ratings and rides, their defaults and constraints, the
    invariant the database keeps, and what deleting a row does to the rows
    that refer to it. Each table is a sequence kept in primary-key order;
    a queryset without `order_by` is assumed to be read in that order, which
    the database itself does not promise. */
module Models {
  import opened Common

  type UserId = nat
  type TaxiId = nat
  type RatingId = nat
  type RideId = nat

  /** An account as the taxi app sees it; `isDriver` defaults to false in
      the accounts table, and no operation here creates an account. */
  datatype User = User(id: UserId, username: string, isDriver: bool, isStaff: bool)

  datatype Taxi = Taxi(id: TaxiId, driver: UserId, licensePlate: string, lat: real, lng: real, available: bool)

  const DefaultLat: real := 0.0
  const DefaultLng: real := 0.0
  const DefaultAvailable: bool := true
  const MaxPlateLength: nat := 15

  /** A score given to a taxi by a user. The table itself accepts any
      integer; its column default (0) never applies, since a rating is only
      created with a score. */
  datatype Rating = Rating(id: RatingId, taxi: TaxiId, user: UserId, score: int)

  datatype RideStatus = Waiting | Accepted | InProgress | Completed | Cancelled | InRide | Shared {
    /** The value stored in the `status` column. */
    function Code(): string {
      match this
      case Waiting => "waiting"
      case Accepted => "accepted"
      case InProgress => "in_progress"
      case Completed => "completed"
      case Cancelled => "cancelled"
      case InRide => "in_ride"
      case Shared => "shared"
    }
  }

  /** The stored values of `STATUS_CHOICES`, in declaration order. */
  const StatusChoices: seq<string> :=
    ["waiting", "accepted", "in_progress", "completed", "cancelled", "in_ride", "shared"]

  const DefaultStatus: RideStatus := Waiting
  const DefaultPrice: real := 0.0

  /** Choice validation of a submitted status: exactly the seven stored
      values are accepted, each naming its own status. */
  function ParseStatus(code: string): (r: Option<RideStatus>)
    ensures r.Some? <==> code in StatusChoices
    ensures r.Some? ==> r.value.Code() == code
  {
    if code == "waiting" then Some(Waiting)
    else if code == "accepted" then Some(Accepted)
    else if code == "in_progress" then Some(InProgress)
    else if code == "completed" then Some(Completed)
    else if code == "cancelled" then Some(Cancelled)
    else if code == "in_ride" then Some(InRide)
    else if code == "shared" then Some(Shared)
    else None
  }

  /** Every status is one of the declared choices and reads back as itself. */
  lemma StatusRoundTrip(s: RideStatus)
    ensures s.Code() in StatusChoices
    ensures ParseStatus(s.Code()) == Some(s)
  {
  }

  /** `pendingRequests` is a set: membership only, no order, no duplicates. */
  datatype Ride = Ride(
    id: RideId,
    passenger: UserId,
    taxi: Option<TaxiId>,
    startLat: real, startLng: real, endLat: real, endLng: real,
    status: RideStatus,
    price: real,
    sharedPassenger: Option<UserId>,
    pendingRequests: set<UserId>)

  /** The whole database. The counters are the next primary keys to hand out. */
  datatype Db = Db(
    users: seq<User>,
    taxis: seq<Taxi>,
    ratings: seq<Rating>,
    rides: seq<Ride>,
    nextTaxiId: TaxiId,
    nextRatingId: RatingId,
    nextRideId: RideId)

  function UserIds(users: seq<User>): set<UserId> { set u | u in users :: u.id }
  function TaxiIds(taxis: seq<Taxi>): set<TaxiId> { set t | t in taxis :: t.id }

  // ---------------------------------------------------------------------
  // The invariant.

  predicate UsersOrdered(users: seq<User>) {
    forall i, j :: 0 <= i < j < |users| ==> users[i].id < users[j].id
  }
  predicate TaxisOrdered(taxis: seq<Taxi>) {
    forall i, j :: 0 <= i < j < |taxis| ==> taxis[i].id < taxis[j].id
  }
  predicate RatingsOrdered(ratings: seq<Rating>) {
    forall i, j :: 0 <= i < j < |ratings| ==> ratings[i].id < ratings[j].id
  }
  predicate RidesOrdered(rides: seq<Ride>) {
    forall i, j :: 0 <= i < j < |rides| ==> rides[i].id < rides[j].id
  }

  /** `Taxi.driver` is one-to-one: no user drives two taxis. */
  predicate OneTaxiPerDriver(taxis: seq<Taxi>) {
    forall i, j :: 0 <= i < j < |taxis| ==> taxis[i].driver != taxis[j].driver
  }

  /** `unique_together = ("taxi", "user")`. */
  predicate OneRatingPerPair(ratings: seq<Rating>) {
    forall i, j :: 0 <= i < j < |ratings| ==>
      ratings[i].taxi != ratings[j].taxi || ratings[i].user != ratings[j].user
  }

  predicate TaxiRefs(taxis: seq<Taxi>, users: set<UserId>) {
    forall t :: t in taxis ==> t.driver in users
  }
  predicate RatingRefs(ratings: seq<Rating>, taxis: set<TaxiId>, users: set<UserId>) {
    forall r :: r in ratings ==> r.taxi in taxis && r.user in users
  }
  predicate RideRefsOk(r: Ride, taxis: set<TaxiId>, users: set<UserId>) {
    && r.passenger in users
    && (r.taxi.Some? ==> r.taxi.value in taxis)
    && (r.sharedPassenger.Some? ==> r.sharedPassenger.value in users)
    && r.pendingRequests <= users
  }
  predicate RideRefs(rides: seq<Ride>, taxis: set<TaxiId>, users: set<UserId>) {
    forall r :: r in rides ==> RideRefsOk(r, taxis, users)
  }

  predicate KeysBelowCounters(db: Db) {
    && (forall t :: t in db.taxis ==> t.id < db.nextTaxiId)
    && (forall r :: r in db.ratings ==> r.id < db.nextRatingId)
    && (forall r :: r in db.rides ==> r.id < db.nextRideId)
  }

  /** What the database guarantees between requests: unique keys in key
      order, the one-to-one driver relation, one rating per (taxi, user),
      and every foreign key pointing at an existing row. */
  predicate Valid(db: Db) {
    && UsersOrdered(db.users) && TaxisOrdered(db.taxis)
    && RatingsOrdered(db.ratings) && RidesOrdered(db.rides)
    && OneTaxiPerDriver(db.taxis)
    && OneRatingPerPair(db.ratings)
    && TaxiRefs(db.taxis, UserIds(db.users))
    && RatingRefs(db.ratings, TaxiIds(db.taxis), UserIds(db.users))
    && RideRefs(db.rides, TaxiIds(db.taxis), UserIds(db.users))
    && KeysBelowCounters(db)
  }

  // ---------------------------------------------------------------------
  // Lookups.

  /** `CustomUser.objects.get(id=id)`. */
  function FindUser(users: seq<User>, id: UserId): (r: Option<nat>)
    ensures r.Some? ==> r.value < |users| && users[r.value].id == id
    ensures r.None? <==> id !in UserIds(users)
  {
    var r := IndexOf(users, (u: User) => u.id == id);
    assert r.Some? ==> users[r.value] in users;
    r
  }

  /** `Taxi.objects.get(id=id)`; with keys in order it is the only match. */
  function FindTaxi(taxis: seq<Taxi>, id: TaxiId): (r: Option<nat>)
    ensures r.Some? ==> r.value < |taxis| && taxis[r.value].id == id
    ensures r.None? <==> id !in TaxiIds(taxis)
    ensures TaxisOrdered(taxis) ==> forall k :: 0 <= k < |taxis| && taxis[k].id == id ==> r == Some(k)
  {
    var r := IndexOf(taxis, (t: Taxi) => t.id == id);
    assert r.Some? ==> taxis[r.value] in taxis;
    r
  }

  /** `Ride.objects.get(id=id)`. */
  function FindRide(rides: seq<Ride>, id: RideId): (r: Option<nat>)
    ensures r.Some? ==> r.value < |rides| && rides[r.value].id == id
    ensures r.None? ==> forall k :: 0 <= k < |rides| ==> rides[k].id != id
    ensures RidesOrdered(rides) ==> forall k :: 0 <= k < |rides| && rides[k].id == id ==> r == Some(k)
  {
    IndexOf(rides, (x: Ride) => x.id == id)
  }

  /** The rating row for (taxi, user), if there is one. */
  function FindRating(ratings: seq<Rating>, taxi: TaxiId, user: UserId): (r: Option<nat>)
    ensures r.Some? ==> r.value < |ratings| && ratings[r.value].taxi == taxi && ratings[r.value].user == user
    ensures r.None? ==> forall k :: 0 <= k < |ratings| ==> ratings[k].taxi != taxi || ratings[k].user != user
    ensures OneRatingPerPair(ratings) ==>
      forall k :: 0 <= k < |ratings| && ratings[k].taxi == taxi && ratings[k].user == user ==> r == Some(k)
  {
    IndexOf(ratings, (x: Rating) => x.taxi == taxi && x.user == user)
  }

  /** The reverse one-to-one accessor `user.taxi`; absent when the user
      drives no taxi (where `hasattr(user, 'taxi')` is false). */
  function TaxiOfDriver(taxis: seq<Taxi>, user: UserId): (r: Option<nat>)
    ensures r.Some? ==> r.value < |taxis| && taxis[r.value].driver == user
    ensures r.None? ==> forall k :: 0 <= k < |taxis| ==> taxis[k].driver != user
    ensures OneTaxiPerDriver(taxis) ==> forall k :: 0 <= k < |taxis| && taxis[k].driver == user ==> r == Some(k)
  {
    IndexOf(taxis, (t: Taxi) => t.driver == user)
  }

  /** Under the invariant, `user.taxi` is this taxi exactly when the taxi's
      driver is that user. */
  lemma DriverOwnsTaxi(db: Db, user: UserId, k: nat)
    requires Valid(db) && k < |db.taxis|
    ensures TaxiOfDriver(db.taxis, user) == Some(k) <==> db.taxis[k].driver == user
  {
  }

  // ---------------------------------------------------------------------
  // Facts about the id sets.

  lemma MemberOfUpdate<T>(s: seq<T>, i: nat, v: T, x: T)
    requires i < |s|
    requires x in s[i := v]
    ensures x == v || x in s
  {
    var j :| 0 <= j < |s| && s[i := v][j] == x;
    if j != i { assert s[j] == x; }
  }

  lemma TaxiIdsUpdate(taxis: seq<Taxi>, i: nat, t: Taxi)
    requires i < |taxis| && t.id == taxis[i].id
    ensures TaxiIds(taxis[i := t]) == TaxiIds(taxis)
  {
    forall x | x in TaxiIds(taxis[i := t]) ensures x in TaxiIds(taxis) {
      var y :| y in taxis[i := t] && y.id == x;
      MemberOfUpdate(taxis, i, t, y);
      if y == t { assert taxis[i] in taxis; }
    }
    forall x | x in TaxiIds(taxis) ensures x in TaxiIds(taxis[i := t]) {
      var y :| y in taxis && y.id == x;
      var j :| 0 <= j < |taxis| && taxis[j] == y;
      if j == i { assert taxis[i := t][i] == t; } else { assert taxis[i := t][j] == y; }
    }
  }

  // ---------------------------------------------------------------------
  // Deletion: CASCADE removes the referring rows, SET_NULL clears the
  // reference, and a many-to-many link disappears with either end.

  /** `Ride.taxi` is SET_NULL: a ride whose taxi is deleted stays, untaxied. */
  function DetachTaxi(r: Ride, gone: set<TaxiId>): (r': Ride)
    ensures r'.taxi == (if r.taxi.Some? && r.taxi.value in gone then None else r.taxi)
    ensures r' == r.(taxi := r'.taxi)
  {
    if r.taxi.Some? && r.taxi.value in gone then r.(taxi := None) else r
  }

  /** What deleting a user leaves of a ride that survives it: the shared
      passenger is SET_NULL, the pending request goes, and the taxi is
      cleared if it was the user's own (deleted in cascade). */
  function DetachUser(r: Ride, user: UserId, gone: set<TaxiId>): Ride {
    DetachTaxi(r, gone).(
      sharedPassenger := if r.sharedPassenger == Some(user) then None else r.sharedPassenger,
      pendingRequests := r.pendingRequests - {user})
  }

  /** Deleting a taxi: its ratings go in cascade, its rides stay with no taxi. */
  function DeleteTaxi(db: Db, t: TaxiId): Db {
    db.(
      taxis := Filter(db.taxis, (x: Taxi) => x.id != t),
      ratings := Filter(db.ratings, (x: Rating) => x.taxi != t),
      rides := seq(|db.rides|, k requires 0 <= k < |db.rides| => DetachTaxi(db.rides[k], {t})))
  }

  /** The taxis a user drives (at most one under the invariant). */
  function TaxisDrivenBy(taxis: seq<Taxi>, user: UserId): set<TaxiId> {
    set t | t in taxis && t.driver == user :: t.id
  }

  /** Deleting a user: their taxi (with its ratings), their own ratings and
      the rides they booked go in cascade; other rides lose them as shared
      passenger or pending requester, and lose their taxi if it was theirs. */
  function DeleteUser(db: Db, user: UserId): Db {
    var gone := TaxisDrivenBy(db.taxis, user);
    var kept := Filter(db.rides, (x: Ride) => x.passenger != user);
    db.(
      users := Filter(db.users, (x: User) => x.id != user),
      taxis := Filter(db.taxis, (x: Taxi) => x.driver != user),
      ratings := Filter(db.ratings, (x: Rating) => x.user != user && x.taxi !in gone),
      rides := seq(|kept|, k requires 0 <= k < |kept| => DetachUser(kept[k], user, gone)))
  }

  /** Deleting a taxi keeps every ride, in place, with only its `taxi`
      cleared where it was the deleted taxi; the taxi and its ratings are gone. */
  lemma DeleteTaxiEffect(db: Db, t: TaxiId)
    ensures var d := DeleteTaxi(db, t);
      && |d.rides| == |db.rides|
      && (forall k :: 0 <= k < |d.rides| ==>
            d.rides[k] == db.rides[k].(taxi := if db.rides[k].taxi == Some(t) then None else db.rides[k].taxi))
      && TaxiIds(d.taxis) == TaxiIds(db.taxis) - {t}
      && (forall x :: x in d.taxis <==> x in db.taxis && x.id != t)
      && (forall r :: r in d.ratings <==> r in db.ratings && r.taxi != t)
      && d.users == db.users
  {
    var d := DeleteTaxi(db, t);
    forall x | x in TaxiIds(db.taxis) - {t} ensures x in TaxiIds(d.taxis) {
      var y :| y in db.taxis && y.id == x;
      assert y in d.taxis;
    }
  }

  /** Deleting a user clears them from every ride that survives: no ride is
      shared with them, none has them pending, none is theirs. */
  lemma DeleteUserEffect(db: Db, user: UserId)
    ensures var d := DeleteUser(db, user);
      && UserIds(d.users) == UserIds(db.users) - {user}
      && (forall r :: r in d.rides ==>
            r.passenger != user && r.sharedPassenger != Some(user) && user !in r.pendingRequests)
      && (forall t :: t in d.taxis ==> t.driver != user)
      && (forall r :: r in d.ratings ==> r.user != user)
  {
    var d := DeleteUser(db, user);
    forall x | x in UserIds(db.users) - {user} ensures x in UserIds(d.users) {
      var y :| y in db.users && y.id == x;
      assert y in d.users;
    }
    var gone := TaxisDrivenBy(db.taxis, user);
    var kept := Filter(db.rides, (x: Ride) => x.passenger != user);
    forall r | r in d.rides
      ensures r.passenger != user && r.sharedPassenger != Some(user) && user !in r.pendingRequests
    {
      var k :| 0 <= k < |d.rides| && d.rides[k] == r;
      assert r == DetachUser(kept[k], user, gone);
      assert kept[k] in kept;
    }
  }

  /** Nothing else is lost when a user is deleted: every other user, every
      taxi they do not drive and every rating that is neither theirs nor
      their taxi's stays; every ride they did not book stays, with only the
      user (and their taxi) detached, and no other ride appears. */
  lemma DeleteUserKeepsOthers(db: Db, user: UserId)
    ensures var d := DeleteUser(db, user); var gone := TaxisDrivenBy(db.taxis, user);
      && (forall u :: u in d.users <==> u in db.users && u.id != user)
      && (forall t :: t in d.taxis <==> t in db.taxis && t.driver != user)
      && (forall r :: r in d.ratings <==> r in db.ratings && r.user != user && r.taxi !in gone)
      && (forall r :: r in db.rides && r.passenger != user ==> DetachUser(r, user, gone) in d.rides)
      && (forall r' :: r' in d.rides ==>
            exists r :: r in db.rides && r.passenger != user && r' == DetachUser(r, user, gone))
  {
    var d := DeleteUser(db, user);
    var gone := TaxisDrivenBy(db.taxis, user);
    var kept := Filter(db.rides, (x: Ride) => x.passenger != user);
    forall r | r in db.rides && r.passenger != user ensures DetachUser(r, user, gone) in d.rides {
      assert r in kept;
      var k :| 0 <= k < |kept| && kept[k] == r;
      assert d.rides[k] == DetachUser(r, user, gone);
    }
    forall r' | r' in d.rides
      ensures exists r :: r in db.rides && r.passenger != user && r' == DetachUser(r, user, gone)
    {
      var k :| 0 <= k < |d.rides| && d.rides[k] == r';
      assert kept[k] in kept;
      assert r' == DetachUser(kept[k], user, gone);
    }
  }

  /** Deleting a taxi keeps the invariant. */
  lemma DeleteTaxiValid(db: Db, t: TaxiId)
    requires Valid(db)
    ensures Valid(DeleteTaxi(db, t))
  {
    var d := DeleteTaxi(db, t);
    DeleteTaxiEffect(db, t);
    FilterPairwise(db.taxis, (x: Taxi) => x.id != t, (a: Taxi, b: Taxi) => a.id < b.id);
    FilterPairwise(db.taxis, (x: Taxi) => x.id != t, (a: Taxi, b: Taxi) => a.driver != b.driver);
    FilterPairwise(db.ratings, (x: Rating) => x.taxi != t, (a: Rating, b: Rating) => a.id < b.id);
    FilterPairwise(db.ratings, (x: Rating) => x.taxi != t,
      (a: Rating, b: Rating) => a.taxi != b.taxi || a.user != b.user);
    forall r | r in d.rides ensures RideRefsOk(r, TaxiIds(d.taxis), UserIds(d.users)) && r.id < d.nextRideId {
      var k :| 0 <= k < |d.rides| && d.rides[k] == r;
      assert db.rides[k] in db.rides;
    }
    assert RidesOrdered(d.rides) by {
      forall i, j | 0 <= i < j < |d.rides| ensures d.rides[i].id < d.rides[j].id {
        assert d.rides[i].id == db.rides[i].id && d.rides[j].id == db.rides[j].id;
      }
    }
  }

  /** The taxis that survive a user's deletion are exactly the others. */
  lemma DeleteUserTaxiIds(db: Db, user: UserId)
    requires TaxisOrdered(db.taxis)
    ensures TaxiIds(DeleteUser(db, user).taxis) == TaxiIds(db.taxis) - TaxisDrivenBy(db.taxis, user)
  {
    var d := DeleteUser(db, user);
    var gone := TaxisDrivenBy(db.taxis, user);
    forall x | x in TaxiIds(d.taxis) ensures x in TaxiIds(db.taxis) - gone {
      var y :| y in d.taxis && y.id == x;
      assert y in db.taxis;
    }
    forall x | x in TaxiIds(db.taxis) - gone ensures x in TaxiIds(d.taxis) {
      var y :| y in db.taxis && y.id == x;
      assert y in d.taxis;
    }
  }

  /** The rides that survive a user's deletion stay in key order and refer
      only to surviving rows. */
  lemma DeleteUserRides(db: Db, user: UserId)
    requires Valid(db)
    ensures var d := DeleteUser(db, user);
      RidesOrdered(d.rides) && RideRefs(d.rides, TaxiIds(d.taxis), UserIds(d.users))
      && forall r :: r in d.rides ==> r.id < d.nextRideId
  {
    var d := DeleteUser(db, user);
    var gone := TaxisDrivenBy(db.taxis, user);
    var kept := Filter(db.rides, (x: Ride) => x.passenger != user);
    DeleteUserEffect(db, user);
    DeleteUserTaxiIds(db, user);
    FilterPairwise(db.rides, (x: Ride) => x.passenger != user, (a: Ride, b: Ride) => a.id < b.id);
    forall r | r in d.rides ensures RideRefsOk(r, TaxiIds(d.taxis), UserIds(d.users)) && r.id < d.nextRideId {
      var k :| 0 <= k < |d.rides| && d.rides[k] == r;
      assert kept[k] in kept;
    }
    assert RidesOrdered(d.rides) by {
      forall i, j | 0 <= i < j < |d.rides| ensures d.rides[i].id < d.rides[j].id {
        assert d.rides[i].id == kept[i].id && d.rides[j].id == kept[j].id;
      }
    }
  }

  /** Deleting a user keeps the invariant. */
  lemma DeleteUserValid(db: Db, user: UserId)
    requires Valid(db)
    ensures Valid(DeleteUser(db, user))
  {
    var d := DeleteUser(db, user);
    var gone := TaxisDrivenBy(db.taxis, user);
    DeleteUserEffect(db, user);
    DeleteUserTaxiIds(db, user);
    DeleteUserRides(db, user);
    FilterPairwise(db.users, (x: User) => x.id != user, (a: User, b: User) => a.id < b.id);
    FilterPairwise(db.taxis, (x: Taxi) => x.driver != user, (a: Taxi, b: Taxi) => a.id < b.id);
    FilterPairwise(db.taxis, (x: Taxi) => x.driver != user, (a: Taxi, b: Taxi) => a.driver != b.driver);
    FilterPairwise(db.ratings, (x: Rating) => x.user != user && x.taxi !in gone,
      (a: Rating, b: Rating) => a.id < b.id);
    FilterPairwise(db.ratings, (x: Rating) => x.user != user && x.taxi !in gone,
      (a: Rating, b: Rating) => a.taxi != b.taxi || a.user != b.user);
    forall r | r in d.ratings ensures r.taxi in TaxiIds(d.taxis) && r.user in UserIds(d.users) {
      assert r in db.ratings;
    }
  }
}

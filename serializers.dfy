/** `TaxiSerializer`: which users may be assigned as a taxi's driver, the
    rule that an assigned driver never changes, and the computed fields of a
    taxi's representation (rating count, mean score, completed rides). */
module Serializers {
  import opened Common
  import opened Models

  // ---------------------------------------------------------------------
  // The `driver` field.

  /** The `driver` field's queryset: users flagged as drivers who do not
      drive a taxi yet. */
  predicate EligibleDriver(db: Db, u: UserId) {
    match FindUser(db.users, u)
    case None => false
    case Some(k) => db.users[k].isDriver && TaxiOfDriver(db.taxis, u).None?
  }

  /** The submitted `driver` value: left out, `null`, or a primary key. */
  datatype DriverField = Omitted | NullDriver | DriverKey(user: UserId)

  /** Field validation of `driver`: null is allowed, a key must name an
      eligible user. */
  predicate DriverFieldValid(db: Db, f: DriverField) {
    !f.DriverKey? || EligibleDriver(db, f.user)
  }

  /** Assigning an eligible driver to a new taxi keeps every user at no more
      than one taxi, and keeps the whole invariant. */
  lemma EligibleDriverKeepsValid(db: Db, d: UserId, plate: string, lat: real, lng: real, available: bool)
    requires Valid(db) && EligibleDriver(db, d)
    ensures Valid(db.(taxis := db.taxis + [Taxi(db.nextTaxiId, d, plate, lat, lng, available)],
                      nextTaxiId := db.nextTaxiId + 1))
  {
    var t := Taxi(db.nextTaxiId, d, plate, lat, lng, available);
    var taxis := db.taxis + [t];
    var k := FindUser(db.users, d).value;
    assert db.users[k] in db.users;
    assert TaxiIds(taxis) == TaxiIds(db.taxis) + {t.id} by {
      forall x | x in TaxiIds(taxis) ensures x in TaxiIds(db.taxis) + {t.id} {
        var y :| y in taxis && y.id == x;
        if y != t { assert y in db.taxis; }
      }
      forall x | x in TaxiIds(db.taxis) ensures x in TaxiIds(taxis) {
        var y :| y in db.taxis && y.id == x;
        assert y in taxis;
      }
    }
    forall i, j | 0 <= i < j < |taxis| ensures taxis[i].id < taxis[j].id && taxis[i].driver != taxis[j].driver {
      if j == |taxis| - 1 {
        assert taxis[i] == db.taxis[i] && db.taxis[i] in db.taxis;
      }
    }
    forall x | x in taxis ensures x.driver in UserIds(db.users) && x.id < db.nextTaxiId + 1 {
      if x != t { assert x in db.taxis; }
    }
  }

  // ---------------------------------------------------------------------
  // The `license_plate` field: a model CharField becomes a serializer
  // CharField that trims surrounding whitespace, refuses a blank value and
  // checks `max_length` on what is left, which is what gets stored.

  /** Python's `str.isspace` for one character. */
  predicate IsSpace(c: char) {
    || ('\t' <= c <= '\r') || ('\U{1C}' <= c <= ' ') || c == '\U{85}' || c == '\U{A0}'
    || c == '\U{1680}' || ('\U{2000}' <= c <= '\U{200A}') || c == '\U{2028}' || c == '\U{2029}'
    || c == '\U{202F}' || c == '\U{205F}' || c == '\U{3000}'
  }

  /** How many whitespace characters `s` starts with. */
  function LeadingSpaces(s: string): (n: nat)
    ensures n <= |s|
    ensures forall i :: 0 <= i < n ==> IsSpace(s[i])
    ensures n < |s| ==> !IsSpace(s[n])
    decreases |s|
  {
    if s != [] && IsSpace(s[0]) then 1 + LeadingSpaces(s[1..]) else 0
  }

  /** How many whitespace characters `s` ends with. */
  function TrailingSpaces(s: string): (n: nat)
    ensures n <= |s|
    ensures forall i :: |s| - n <= i < |s| ==> IsSpace(s[i])
    ensures n < |s| ==> !IsSpace(s[|s| - 1 - n])
    decreases |s|
  {
    if s != [] && IsSpace(s[|s| - 1]) then 1 + TrailingSpaces(s[..|s| - 1]) else 0
  }

  /** `str.strip()`: neither end of the result is whitespace, and it is
      empty exactly when the input is all whitespace. */
  function Strip(s: string): (r: string)
    ensures |r| <= |s|
    ensures r != [] ==> !IsSpace(r[0]) && !IsSpace(r[|r| - 1])
    ensures r == [] <==> forall i :: 0 <= i < |s| ==> IsSpace(s[i])
  {
    var n := LeadingSpaces(s);
    var t := s[n..];
    t[..|t| - TrailingSpaces(t)]
  }

  /** Stripping removes only whitespace, and only from the two ends: the
      result is the piece of the input after its leading whitespace, and
      everything after the piece is whitespace too. */
  lemma StripRemovesOnlySpaces(s: string)
    ensures var i := LeadingSpaces(s);
      && i + |Strip(s)| <= |s| && Strip(s) == s[i..i + |Strip(s)|]
      && forall k :: i + |Strip(s)| <= k < |s| ==> IsSpace(s[k])
  {
    var n := LeadingSpaces(s);
    var t := s[n..];
    var m := TrailingSpaces(t);
    assert Strip(s) == s[n..n + (|t| - m)] by {
      assert Strip(s) == t[..|t| - m];
    }
    forall k | n + |t| - m <= k < |s| ensures IsSpace(s[k]) {
      TrailingSpace(t, m, k - n);
    }
  }

  /** The whitespace `TrailingSpaces` counted, one position at a time. */
  lemma TrailingSpace(t: string, m: nat, j: nat)
    requires m == TrailingSpaces(t) && |t| - m <= j < |t|
    ensures IsSpace(t[j])
  {
  }

  /** Stripping twice is stripping once: a stored plate validates as itself. */
  lemma StripIdempotent(s: string)
    ensures Strip(Strip(s)) == Strip(s)
  {
    var r := Strip(s);
    if r != [] {
      assert LeadingSpaces(r) == 0;
      assert TrailingSpaces(r) == 0;
    }
  }

  /** The plate as submitted passes field validation: not blank once
      stripped, and at most 15 characters once stripped. */
  predicate PlateValid(plate: string) {
    0 < |Strip(plate)| <= MaxPlateLength
  }

  /** The validated data of an update: a submitted plate is stored stripped. */
  function Cleaned(c: TaxiChanges): (c': TaxiChanges)
    ensures c'.licensePlate == (if c.licensePlate.Some? then Some(Strip(c.licensePlate.value)) else None)
    ensures c' == c.(licensePlate := c'.licensePlate)
  {
    c.(licensePlate := if c.licensePlate.Some? then Some(Strip(c.licensePlate.value)) else None)
  }

  /** The changes a taxi update submits; `None` leaves a field as it is. */
  datatype TaxiChanges = TaxiChanges(
    driver: DriverField,
    licensePlate: Option<string>,
    lat: Option<real>,
    lng: Option<real>,
    available: Option<bool>)

  /** `update`: the instance always has a driver (the column is not null),
      so the submitted `driver` is popped before the fields are written. */
  function ApplyUpdate(t: Taxi, c: TaxiChanges): (r: Taxi)
    ensures r.id == t.id && r.driver == t.driver
    ensures r.licensePlate == (if c.licensePlate.Some? then c.licensePlate.value else t.licensePlate)
    ensures r.lat == (if c.lat.Some? then c.lat.value else t.lat)
    ensures r.lng == (if c.lng.Some? then c.lng.value else t.lng)
    ensures r.available == (if c.available.Some? then c.available.value else t.available)
  {
    var data := c.(driver := Omitted);
    t.(
      licensePlate := if data.licensePlate.Some? then data.licensePlate.value else t.licensePlate,
      lat := if data.lat.Some? then data.lat.value else t.lat,
      lng := if data.lng.Some? then data.lng.value else t.lng,
      available := if data.available.Some? then data.available.value else t.available)
  }

  /** However many updates are applied, the driver is the one first assigned. */
  lemma {:induction false} DriverNeverChanges(t: Taxi, cs: seq<TaxiChanges>)
    ensures ApplyAll(t, cs).driver == t.driver && ApplyAll(t, cs).id == t.id
    decreases |cs|
  {
    if cs != [] {
      DriverNeverChanges(ApplyUpdate(t, cs[0]), cs[1..]);
    }
  }

  /** A sequence of updates, applied in order. */
  function ApplyAll(t: Taxi, cs: seq<TaxiChanges>): Taxi
    decreases |cs|
  {
    if cs == [] then t else ApplyAll(ApplyUpdate(t, cs[0]), cs[1..])
  }

  // ---------------------------------------------------------------------
  // Computed fields.

  /** `obj.ratings.all()`. */
  function RatingsOf(db: Db, t: TaxiId): (rs: seq<Rating>)
    ensures forall r :: r in rs <==> r in db.ratings && r.taxi == t
  {
    Filter(db.ratings, (r: Rating) => r.taxi == t)
  }

  function SumScores(rs: seq<Rating>): int
    decreases |rs|
  {
    if rs == [] then 0 else SumScores(rs[..|rs| - 1]) + rs[|rs| - 1].score
  }

  /** `get_ratings_count`. */
  function RatingsCount(db: Db, t: TaxiId): nat {
    |RatingsOf(db, t)|
  }

  /** The users who rated the taxi. */
  function Raters(db: Db, t: TaxiId): set<UserId> {
    set r | r in db.ratings && r.taxi == t :: r.user
  }

  /** The users of `rs + [x]` are those of `rs` and x's. */
  lemma UsersOfSnoc(rs: seq<Rating>, x: Rating)
    ensures (set r | r in rs + [x] :: r.user) == (set r | r in rs :: r.user) + {x.user}
  {
    var s0 := set r | r in rs :: r.user;
    forall r | r in rs + [x] ensures r.user in s0 + {x.user} {
      if r != x { assert r in rs; }
    }
    forall u | u in s0 ensures u in (set r | r in rs + [x] :: r.user) {
      var r :| r in rs && r.user == u;
      assert r in rs + [x];
    }
  }

  lemma {:induction false} DistinctUsersCount(rs: seq<Rating>)
    requires forall i, j :: 0 <= i < j < |rs| ==> rs[i].user != rs[j].user
    ensures |set r | r in rs :: r.user| == |rs|
    decreases |rs|
  {
    if rs != [] {
      var init := rs[..|rs| - 1];
      var last := rs[|rs| - 1];
      assert rs == init + [last];
      assert forall i :: 0 <= i < |init| ==> init[i] == rs[i];
      DistinctUsersCount(init);
      UsersOfSnoc(init, last);
      forall r | r in init ensures r.user != last.user {
        var k :| 0 <= k < |init| && init[k] == r;
        assert rs[k] == r;
      }
      assert last.user !in (set r | r in init :: r.user);
    }
  }

  /** With one rating per (taxi, user), the rating count is the number of
      distinct users who rated the taxi: a repeat rating never counts twice. */
  lemma RatingsCountIsRaters(db: Db, t: TaxiId)
    requires OneRatingPerPair(db.ratings)
    ensures RatingsCount(db, t) == |Raters(db, t)|
  {
    var rs := RatingsOf(db, t);
    FilterPairwise(db.ratings, (r: Rating) => r.taxi == t,
      (a: Rating, b: Rating) => a.taxi != b.taxi || a.user != b.user);
    forall i, j | 0 <= i < j < |rs| ensures rs[i].user != rs[j].user {
      assert rs[i] in rs && rs[j] in rs;
    }
    DistinctUsersCount(rs);
    assert (set r | r in rs :: r.user) == Raters(db, t);
  }

  /** `get_average_rating`: no value without ratings, else the exact mean
      (the source rounds it to two places). */
  function AverageRating(db: Db, t: TaxiId): (avg: Option<real>)
    ensures avg.None? <==> RatingsCount(db, t) == 0
    ensures avg.Some? ==> IsMean(avg.value, SumScores(RatingsOf(db, t)), RatingsCount(db, t))
  {
    var rs := RatingsOf(db, t);
    if |rs| == 0 then None else Some(Mean(SumScores(rs), |rs|))
  }

  /** `m` is the mean of `n` values whose total is `sum`. */
  predicate IsMean(m: real, sum: int, n: nat) {
    m * n as real == sum as real
  }

  /** The exact quotient of a total by a positive count. */
  function Mean(sum: int, n: nat): (m: real)
    requires n > 0
    ensures IsMean(m, sum, n)
  {
    sum as real / n as real
  }

  lemma {:induction false} SumScoresBounds(rs: seq<Rating>, lo: int, hi: int)
    requires forall r :: r in rs ==> lo <= r.score <= hi
    ensures lo * |rs| <= SumScores(rs) <= hi * |rs|
    decreases |rs|
  {
    if rs != [] {
      var init := rs[..|rs| - 1];
      var x := rs[|rs| - 1];
      forall r | r in init ensures lo <= r.score <= hi { assert r in rs; }
      SumScoresBounds(init, lo, hi);
      assert x in rs;
      assert SumScores(rs) == SumScores(init) + x.score;
      assert lo * |rs| == lo * |init| + lo;
      assert hi * |rs| == hi * |init| + hi;
    }
  }

  /** When every score lies in 1..5 (what `rate` admits), so does the mean. */
  lemma AverageInRange(db: Db, t: TaxiId)
    requires forall r :: r in db.ratings ==> 1 <= r.score <= 5
    requires RatingsCount(db, t) > 0
    ensures 1.0 <= AverageRating(db, t).value <= 5.0
  {
    var rs := RatingsOf(db, t);
    SumScoresBounds(rs, 1, 5);
    MeanBetween(SumScores(rs), |rs|, 1, 5);
  }

  lemma MeanBetween(sum: int, n: nat, lo: int, hi: int)
    requires n > 0 && lo * n <= sum <= hi * n
    ensures lo as real <= Mean(sum, n) <= hi as real
  {
    var m := Mean(sum, n);
    assert IsMean(m, sum, n);
  }

  /** `taxi_rides.filter(status="completed")`. */
  function CompletedRidesOf(db: Db, t: TaxiId): (rs: seq<Ride>)
    ensures forall r :: r in rs <==> r in db.rides && r.taxi == Some(t) && r.status == Completed
  {
    Filter(db.rides, (r: Ride) => r.taxi == Some(t) && r.status == Completed)
  }

  /** `get_completed_rides_count`. */
  function CompletedRidesCount(db: Db, t: TaxiId): nat {
    |CompletedRidesOf(db, t)|
  }

  /** The serialized taxi. */
  datatype TaxiRep = TaxiRep(
    id: TaxiId,
    driver: UserId,
    licensePlate: string,
    lat: real,
    lng: real,
    available: bool,
    averageRating: Option<real>,
    ratingsCount: nat,
    completedRidesCount: nat)

  /** `to_representation`: the model fields, `driver` as the driver's key,
      and the three computed fields; the mean is absent exactly when the
      count is zero. */
  function Represent(db: Db, t: Taxi): (rep: TaxiRep)
    ensures rep.id == t.id && rep.driver == t.driver && rep.licensePlate == t.licensePlate
    ensures rep.lat == t.lat && rep.lng == t.lng && rep.available == t.available
    ensures rep.averageRating.None? <==> rep.ratingsCount == 0
    ensures rep.ratingsCount == |RatingsOf(db, t.id)|
    ensures rep.completedRidesCount == |CompletedRidesOf(db, t.id)|
  {
    TaxiRep(t.id, t.driver, t.licensePlate, t.lat, t.lng, t.available,
      AverageRating(db, t.id), RatingsCount(db, t.id), CompletedRidesCount(db, t.id))
  }
}

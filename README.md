# Taxi coordination, modelled in Dafny

This project models the `taxi` app of a ride-hailing backend. Passengers book rides and get the nearest available taxi. They can offer a ride for sharing and accept or refuse join requests. Drivers move their taxi and accept rides. Users rate taxis. Websocket consumers relay location and ride events through channel-layer groups.

The model has these modules:

- `Common`: optional values, results with HTTP error codes, JSON values, and request parameters before `float()`. It also holds the decimal form of keys and the `Filter`/`IndexOf` queries over ordered tables.
- `Models`: users, taxis, ratings and rides.
  - Their defaults and the seven ride statuses.
  - The invariant the database keeps: keys in order, one taxi per driver, one rating per (taxi, user), and every reference pointing at a row that exists.
  - What deleting a taxi or a user does to the rows that refer to it.
- `Permissions`: the two checks of `TaxiPermission`.
- `Channels`: the channel layer. This is a registry from group name to member channels, plus the log of every message sent to a group.
- `Consumers`: the three websocket consumers, as classes over the channel layer.
- `Serializers`: the `driver` field rule of `TaxiSerializer`, the trimming and length check of its `license_plate` field, its `update`, its computed fields and its representation.
- `Views`: the actions of `TaxiViewSet` and `RideViewSet`.
  - Read-only actions are functions and loop methods over a database value.
  - Writing actions are methods of `Store`. `Store` holds the database, keeps its invariant and sends through a `ChannelLayer`.
  - The default create, update and destroy of the taxi view set run with this permission class and serializer.

Each table is a sequence in primary-key order. `.first()` on an unordered queryset orders it by key, so it is the first match in the sequence. The other querysets have no `order_by` and the models no default ordering; the model reads them in key order too, which is an assumption (see "## Left out").

Distances are a parameter of type `(real, real, real, real) -> real`. The taxi actions use a kilometre metric and the ride actions a metre metric. This keeps the choice of the nearest taxi and the radius filters exact without modelling trigonometry.

Notes on the code as written:

- `TaxiViewSet.get_object` is overridden without `check_object_permissions`, so `has_object_permission` is never consulted by the view. Any driver may update or delete any taxi. `Views.UpdateSkipsObjectPermission` states this.
- `accept_by_taxi` sends a `ride_notification` to `ride_<passenger id>`. That is the group of the ride whose key equals the passenger's key, not of the accepted ride (`Views.AcceptNotificationGroup`). `RideConsumer` has no `ride_notification` handler. The model keeps both as written.
- Several behaviours are also modelled as written:
  - An action other than `accept` or `refuse` in `respond_join` changes nothing and still answers with that action.
  - `check_requests` lists the pending requests to any authenticated caller.
  - `accept_by_taxi` overrides a ride's taxi and status whatever the status was.

## Model

| member | source | states |
|---|---|---|
| Models.ParseStatus | taxi/models.py:28-36 | exactly the seven stored status values are accepted, each naming the status whose code it is |
| Models.StatusRoundTrip | taxi/models.py:28-36 | every status is one of the declared choices and parses back to itself |
| Models.FindTaxi | taxi/views.py:56 | the taxi found has the key; none is found exactly when no taxi has it; with keys in order the match is unique |
| Models.TaxiOfDriver | taxi/models.py:5 | the reverse one-to-one accessor: the taxi found is driven by the user, none is found when the user drives none, and it is unique |
| Models.DriverOwnsTaxi | taxi/models.py:5 | under the invariant, `user.taxi` is a given taxi exactly when the user is that taxi's driver |
| Models.FindRating | taxi/models.py:20-21 | the rating found belongs to the (taxi, user) pair; none found means no row for it; under the uniqueness constraint it is the only one |
| Models.DetachTaxi | taxi/models.py:38 | SET_NULL: a ride keeps everything but loses its taxi when that taxi is deleted |
| Models.DeleteTaxiEffect | taxi/models.py:38 | deleting a taxi keeps every ride in place with its taxi cleared where it was that taxi, keeps exactly the other taxis, and removes exactly its ratings |
| Models.DeleteUserEffect | taxi/models.py:48-53 | after deleting a user no surviving ride is theirs, shared with them or pending on them, and no taxi or rating of theirs remains |
| Models.DeleteUserKeepsOthers | taxi/models.py:37-53 | deleting a user keeps exactly the other users, the taxis they do not drive and the ratings neither theirs nor their taxi's; every ride they did not book survives with only them (and their taxi) detached, and no other ride appears |
| Models.DeleteTaxiValid | taxi/models.py:15-38 | deleting a taxi keeps the database invariant |
| Models.DeleteUserTaxiIds | taxi/models.py:5 | deleting a user removes exactly the taxis they drive |
| Models.DeleteUserRides | taxi/models.py:37-53 | the rides surviving a user's deletion stay in key order and refer only to surviving rows |
| Models.DeleteUserValid | taxi/models.py:37-53 | deleting a user keeps the database invariant |
| Common.DigitsRoundTrip | taxi/consumers.py:43-44 | the decimal form of a key reads back as that key |
| Common.NatToDigitsInjective | taxi/routing.py:15-16 | distinct keys have distinct digit strings, so each group name belongs to one key |
| Common.NatToDigits | taxi/routing.py:15-16 | `str` of a key is a non-empty digit string without a leading zero, as the `\d+` routes capture |
| Common.Filter | taxi/views.py:126-130 | the kept elements are exactly those of the input that satisfy the test |
| Common.FilterPairwise | taxi/views.py:126-130 | filtering keeps the relative order of what it keeps |
| Permissions.SafeMethodsOpen | taxi/permissions.py:12-13 | GET, HEAD and OPTIONS pass the view-level check for every user |
| Permissions.UnsafeMethodsNeedRole | taxi/permissions.py:15 | any other method passes exactly for staff and drivers |
| Permissions.StaffMayDoAnything | taxi/permissions.py:19-20 | staff pass the object-level check for every method |
| Permissions.OwnerMethodsExactly | taxi/permissions.py:22-23 | the owning driver gets exactly GET, HEAD, OPTIONS, PUT and PATCH, so not DELETE or POST |
| Permissions.OthersRefused | taxi/permissions.py:22-25 | a user who is neither staff nor the owning driver is refused every method |
| Permissions.ObjectImpliesView | taxi/permissions.py:10-25 | the object-level check never grants more than the view-level one |
| Channels.GroupKindsDisjoint | taxi/consumers.py:44 | user, ride and driver group names never coincide |
| Channels.GroupNameInjective | taxi/consumers.py:77 | within one kind, the group name determines the id |
| Channels.ChannelLayer.GroupAdd | taxi/consumers.py:45 | the channel joins the one group; every other group and the log are unchanged |
| Channels.ChannelLayer.GroupDiscard | taxi/consumers.py:53 | the channel leaves the one group; every other member stays |
| Channels.ChannelLayer.GroupSend | taxi/consumers.py:98-107 | one more entry in the send log; membership untouched |
| Consumers.NotificationsConsumer.Connect | taxi/consumers.py:40-49 | an authenticated user joins exactly `user_<id>` and is accepted; anyone else is closed with 4001 and joins nothing; the group stays tied to the user's id |
| Consumers.NotificationsConsumer.Disconnect | taxi/consumers.py:51-53 | leaves the group only if connect joined one |
| Consumers.NotificationsConsumer.Receive | taxi/consumers.py:55-58 | client frames change nothing and send nothing |
| Consumers.NotificationsConsumer.NotificationMessage | taxi/consumers.py:60-62 | the event's message is sent to the socket unchanged |
| Consumers.RideEcho | taxi/consumers.py:89-107 | a decoded object yields one `ride_event` with its action (null if absent) and data (`{}` if absent); anything else yields nothing |
| Consumers.RideConsumer.Connect | taxi/consumers.py:72-79 | without a ride id the socket closes and joins nothing; otherwise it joins exactly `ride_<id>`; the group stays tied to the route id |
| Consumers.RideConsumer.Disconnect | taxi/consumers.py:81-82 | leaves `ride_<id>` keeping every other member; nothing changes when connect set no group |
| Consumers.RideConsumer.Receive | taxi/consumers.py:84-107 | appends exactly the echo of the frame to `ride_<route id>`, or nothing; a decoded non-object ends the consumer (`payload.get` raises) with nothing sent and its membership left in place |
| Consumers.RideConsumer.RideEvent | taxi/consumers.py:109-110 | the event's message is sent to the socket unchanged |
| Consumers.DriverEcho | taxi/consumers.py:132-155 | only an object with action `location` and object data yields a `driver_location` with the route's driver id, lat, lng and ts |
| Consumers.DriverConsumer.Connect | taxi/consumers.py:120-127 | without a driver id the socket closes and joins nothing; otherwise it joins exactly `driver_<id>`; the group stays tied to the route id |
| Consumers.DriverConsumer.Disconnect | taxi/consumers.py:129-130 | leaves `driver_<id>` keeping every other member; nothing changes when connect set no group |
| Consumers.DriverConsumer.Receive | taxi/consumers.py:132-155 | exactly one `driver_location` to `driver_<route id>` for a location frame, nothing otherwise; a decoded non-object, or a location frame whose data is not an object, ends the consumer with nothing sent and its membership left in place |
| Consumers.DriverConsumer.DriverLocation | taxi/consumers.py:157-158 | the event's message is sent to the socket unchanged |
| Consumers.DriverIgnoresOtherActions | taxi/consumers.py:143 | a frame whose action is not `location` sends nothing |
| Consumers.RideDataDefaults | taxi/consumers.py:95 | a ride frame without data is relayed with data `{}` |
| Serializers.EligibleDriverKeepsValid | taxi/serializers.py:8-10 | giving a new taxi a driver from the queryset keeps one taxi per driver and the whole invariant |
| Serializers.Strip | taxi/models.py:6 | the trimmed plate has no whitespace at either end, and is empty exactly when the input is all whitespace |
| Serializers.StripRemovesOnlySpaces | taxi/models.py:6 | trimming removes only whitespace at the two ends and keeps the rest as one piece |
| Serializers.StripIdempotent | taxi/models.py:6 | trimming a trimmed plate changes nothing |
| Serializers.ApplyUpdate | taxi/serializers.py:52-56 | an update never changes the key or the driver; every other field takes the submitted value or keeps its own |
| Serializers.DriverNeverChanges | taxi/serializers.py:52-56 | however many updates are applied, the driver stays the one first assigned |
| Serializers.RatingsOf | taxi/serializers.py:22 | exactly the ratings of the taxi |
| Serializers.RatingsCountIsRaters | taxi/serializers.py:27-28 | under the uniqueness constraint the rating count is the number of distinct users who rated |
| Serializers.AverageRating | taxi/serializers.py:21-25 | no average exactly when there are no ratings; otherwise the mean of the scores |
| Serializers.AverageInRange | taxi/serializers.py:21-25 | when every score is in 1..5, so is the average |
| Serializers.CompletedRidesOf | taxi/serializers.py:30-32 | exactly the taxi's completed rides |
| Serializers.Represent | taxi/serializers.py:45-50 | the model fields with the driver as its key, and the computed fields; the average is absent exactly when the count is zero |
| Views.GetTaxi | taxi/views.py:53-58 | 404 exactly for an unknown key, otherwise the taxi with that key |
| Views.GetRide | taxi/views.py:203 | 404 exactly for an unknown key, otherwise the ride with that key |
| Views.ScoreAccepted | taxi/views.py:31-32 | a score passes exactly when present and within 1..5 |
| Views.RateSetsScore | taxi/views.py:34-38 | after rating, the (taxi, caller) row holds the new score and is the only one for the pair |
| Views.RateKeepsOthers | taxi/views.py:34-38 | rating leaves every other pair's rows and every other table as they were |
| Views.RateKeepsValid | taxi/views.py:34-38 | rating keeps the database invariant |
| Views.RateTwice | taxi/views.py:34-38 | on any database, rating again replaces the score rather than adding a row |
| Views.Store.Rate | taxi/views.py:26-41 | 404 for an unknown taxi, then 400 for a refused score, with nothing changed; otherwise the upsert, answering the caller's row |
| Views.AverageRatingView | taxi/views.py:43-51 | 404 for an unknown taxi; otherwise no average with a zero count, or the mean and the count |
| Views.AverageViewMatchesSerializer | taxi/views.py:43-51 | the action and the serializer report the same average and count |
| Views.ActiveRide | taxi/views.py:93 | the first ride of the taxi whose status is accepted, in progress or in ride |
| Views.LocationRefusal | taxi/views.py:62-71 | 404 exactly for an unknown taxi; under the invariant 403 exactly when the caller is not its driver and success exactly for its driver with both coordinates parsing; never 500, so the rest is the 400 for a coordinate that does not parse |
| Views.MoveKeepsValid | taxi/views.py:73-75 | moving a taxi keeps its key and driver and the invariant |
| Views.LocationBroadcasts | taxi/views.py:77-104 | one `driver_location` to `driver_<driver>`, then one `ride_event` to `ride_<id>` exactly when the taxi has a ride under way |
| Views.BroadcastGroupsDistinct | taxi/views.py:80-96 | the two broadcasts go to different groups |
| Views.Store.UpdateLocation | taxi/views.py:60-106 | a refusal changes nothing and sends nothing; success sets the coordinates and sends exactly the broadcasts |
| Views.NearbyTaxis | taxi/views.py:118-132 | 400 unless both coordinates parse; exactly the available taxis within 1 km, in key order |
| Views.Radius | taxi/views.py:188 | 500 when no radius is given |
| Views.NearbyRides | taxi/views.py:183-198 | 400 unless coordinates and radius parse; exactly the shared rides starting within the radius, in key order |
| Views.FirstNearestUnique | taxi/views.py:173-177 | at most one taxi is the first nearest |
| Views.NearestAvailableTaxi | taxi/views.py:165-177 | none exactly when no taxi is available; else an available taxi no farther than any other and strictly nearer than every earlier one |
| Views.AddRideKeepsValid | taxi/views.py:180 | saving a new ride under the next key keeps the invariant |
| Views.Store.CreateRide | taxi/views.py:160-180 | 400 with nothing changed exactly when the serializer refuses a field (the required passenger missing or unknown, a coordinate or price not a number, a status outside the choices, an unknown taxi or user key); otherwise appends one ride for the caller with the validated fields, waiting and 0.0 by default, and the first nearest available taxi when both start values are truthy and some taxi is available, else no taxi |
| Views.ReplaceRideKeepsValid | taxi/views.py:245 | saving a changed ride that refers to existing rows keeps the invariant |
| Views.JoinRefusal | taxi/views.py:206-209 | 403 exactly for drivers, 400 exactly when a shared passenger is set |
| Views.JoinRequested | taxi/views.py:212 | the caller joins the pending set and nothing else of the ride changes |
| Views.JoinRequestIdempotent | taxi/views.py:212 | asking twice is asking once |
| Views.Store.RequestJoin | taxi/views.py:201-213 | 404, 403 or 400 with nothing changed; otherwise only that ride's pending set gains the caller |
| Views.CheckRequests | taxi/views.py:216-221 | 404 for an unknown ride; otherwise the key and name of each pending user |
| Views.CheckRequestsListsPending | taxi/views.py:219-220 | under the invariant the listed keys are exactly the pending set |
| Views.RespondRefusal | taxi/views.py:228-237 | 403 exactly for a caller who is not the passenger, 404 exactly when the passenger names no requester or an unknown one, success exactly otherwise |
| Views.Respond | taxi/views.py:239-244 | accept sets the shared passenger, resets the status to waiting and empties the pending set; refuse drops only that requester; anything else changes nothing |
| Views.AcceptClosesJoins | taxi/views.py:240 | after an accept every later join request is refused |
| Views.RefuseKeepsOthers | taxi/views.py:243-244 | a refusal leaves every other user's request in place |
| Views.Store.RespondJoin | taxi/views.py:224-247 | errors change nothing; otherwise only that ride changes, as the answer says, and the action is echoed |
| Views.AcceptNotificationGroup | taxi/views.py:264 | the notification's group is the ride's own group only when the passenger's key equals the ride's key |
| Views.Store.AcceptByTaxi | taxi/views.py:250-276 | 404 or 403 with nothing changed or sent; otherwise the ride takes the caller's taxi and status accepted, and exactly one notification goes to `ride_<passenger>` |
| Views.CreateTaxiRefusal | taxi/serializers.py:8-11 | 403 exactly without the role; 400 exactly for a missing plate, a plate blank or longer than 15 once trimmed, or an ineligible driver key; 500 exactly for a valid request with no driver; success exactly for staff or drivers, a valid plate and an eligible driver key |
| Views.Store.CreateTaxi | taxi/models.py:5-9 | a new taxi under the next key with the eligible driver, the trimmed plate, and the default location and availability where none is given |
| Views.UpdateTaxiRefusal | taxi/views.py:53-58 | for PUT and PATCH: 403 exactly without the role, 404 exactly for an unknown taxi, never 500; success exactly on an existing taxi with valid fields (a trimmed plate, required by PUT); ownership is never asked |
| Views.UpdateSkipsObjectPermission | taxi/views.py:53-58 | a driver may update a taxi that is not theirs even though the object-level check refuses them |
| Views.UpdateKeepsValid | taxi/serializers.py:52-56 | writing an update keeps the invariant |
| Views.Store.UpdateTaxi | taxi/serializers.py:52-56 | the taxi becomes the update applied to it, with a submitted plate trimmed and its driver unchanged |
| Views.Store.DestroyTaxi | taxi/models.py:38 | 403 without the role, 404 for an unknown taxi, otherwise exactly the cascading deletion |

## Left out

- Haversine: distance is a parameter. Floating point, NaN and infinity are not modelled; the initial `float("inf")` is "no best yet".
- Serializers.AverageRating: the mean is exact; the source rounds it to two places.
- Views.AverageRatingView: the mean is exact; the source rounds it to two places.
- Views.Store.Rate: a score is an optional integer; a non-numeric score, which makes `int()` raise, is not modelled.
- Views.Store.RespondJoin: a `requester_id` that is not an integer makes the lookup raise; only absent or unknown ids (404) are modelled.
- Views.Store.CreateRide: a submitted key or status of the wrong JSON type is not modelled; keys arrive as integers and the status as a string, or absent.
- Views.Store.CreateTaxi: the location and availability arrive already validated; a non-numeric coordinate or non-boolean availability, which the serializer refuses, is not modelled. A missing driver, which the database refuses, is the 500 error.
- Views.Store.UpdateTaxi: only PUT and PATCH reach it; the router sends no other verb to `update`.
- Permissions: an anonymous user on a non-safe method, whose missing `is_driver` makes the check raise, is not modelled; users are accounts with both flags.
- `TaxiViewSet.get_queryset` (the list action's filter by driver) and every list and retrieve response not named above are not modelled.
- `created_at` timestamps, `__str__`, and user registration in the accounts app are not modelled.
- Querysets without `order_by` (taxi/views.py:127, 173 and 193) are assumed to be read in key order. The database promises no order there, so the tie-break between equally near taxis in `perform_create` and the order of the nearby lists hold under this assumption only.
- JSON decoding is given: a frame is a decoded value or nothing. Socket delivery, the ASGI stack and concurrency are not modelled; two requests never interleave.
- Consumers.RideConsumer.Disconnect: after a refused connect the source raises AttributeError; the model returns false and changes nothing.
- Consumers.DriverConsumer.Disconnect: after a refused connect the source raises AttributeError; the model returns false and changes nothing.
- Consumers.RideConsumer.Receive: frames are assumed to arrive only on an accepted socket. A frame that raises ends in `Failed`; what the server then does with the socket is not modelled.
- Consumers.DriverConsumer.Receive: frames are assumed to arrive only on an accepted socket. A frame that raises ends in `Failed`; what the server then does with the socket is not modelled.
- The commented-out consumer and route blocks at the head of `taxi/consumers.py` and `taxi/routing.py`, and the commented-out `get_object`, are dead code.

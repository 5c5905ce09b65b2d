/** The three websocket consumers. Each connection is an object bound to one
    channel name and the shared channel layer; `connect` decides whether it
    joins a group and which, `disconnect` leaves it, `receive` decides what
    to send to the group, and the handlers forward group messages to the
    socket. A decoded frame is `Some(json)`; a frame that `json.loads`
    rejects (or a binary frame) is `None`. */
module Consumers {
  import opened Common
  import opened Models
  import opened Channels

  /** Where the socket stands: before connect, accepted, closed with an
      optional close code, or failed: handling a frame raised, which ends the
      consumer without running `disconnect`, so its group membership stays. */
  datatype SocketState = Connecting | Open | Closed(code: Option<int>) | Failed

  /** The close code for an unauthenticated notifications socket. */
  const UnauthenticatedCode: int := 4001

  /** Python truthiness of a captured route id: None and "" are false. */
  predicate RouteGiven(id: Option<string>) { id.Some? && id.value != "" }

  /** /ws/notifications/: one private group per signed-in user. */
  class NotificationsConsumer {
    const channel: ChannelId
    const layer: ChannelLayer
    var userId: Option<string>
    var groupName: Option<string>
    var state: SocketState
    var sent: seq<Json>

    /** The group is `user_<id>` of the user the socket was opened for, and
        an accepted socket has one. */
    predicate Valid()
      reads this
    {
      && (state == Connecting ==> groupName.None?)
      && (state == Open ==> groupName.Some?)
      && (groupName.Some? ==> userId.Some? && groupName.value == UserGroup(userId.value))
    }

    constructor (channel: ChannelId, layer: ChannelLayer)
      ensures this.channel == channel && this.layer == layer
      ensures userId == None && groupName == None && state == Connecting && sent == []
      ensures Valid()
    {
      this.channel := channel;
      this.layer := layer;
      userId := None;
      groupName := None;
      state := Connecting;
      sent := [];
    }

    /** `user` is the authenticated user's key, None for a missing or
        anonymous scope user. An authenticated user joins exactly
        `user_<id>` and is accepted; anyone else is closed with 4001 and
        joins nothing. */
    method Connect(user: Option<UserId>)
      requires Valid() && state == Connecting
      modifies this, layer
      ensures Valid()
      ensures user.Some? ==>
        && userId == Some(NatToDigits(user.value))
        && groupName == Some(UserGroup(NatToDigits(user.value)))
        && state == Open
        && Members(layer.groups, groupName.value) == Members(old(layer.groups), groupName.value) + {channel}
        && forall h :: h != groupName.value ==> Members(layer.groups, h) == Members(old(layer.groups), h)
      ensures user.None? ==>
        && state == Closed(Some(UnauthenticatedCode))
        && userId == old(userId) && groupName == old(groupName)
        && layer.groups == old(layer.groups)
      ensures layer.published == old(layer.published) && sent == old(sent)
    {
      if user.Some? {
        var id := NatToDigits(user.value);
        userId := Some(id);
        groupName := Some(UserGroup(id));
        layer.GroupAdd(UserGroup(id), channel);
        state := Open;
      } else {
        state := Closed(Some(UnauthenticatedCode));
      }
    }

    /** Leaves the group if connect joined one (`hasattr(self, "group_name")`);
        a refused socket changes no membership. */
    method Disconnect()
      modifies layer
      ensures groupName.None? ==> layer.groups == old(layer.groups)
      ensures groupName.Some? ==>
        && Members(layer.groups, groupName.value) == Members(old(layer.groups), groupName.value) - {channel}
        && forall h :: h != groupName.value ==> Members(layer.groups, h) == Members(old(layer.groups), h)
      ensures layer.published == old(layer.published)
    {
      if groupName.Some? {
        layer.GroupDiscard(groupName.value, channel);
      }
    }

    /** Client frames are ignored: no state changes and nothing is sent. */
    method Receive(payload: Option<Json>)
      ensures unchanged(this) && unchanged(layer)
    {
    }

    /** `notification_message`: the event's message goes to the socket as is. */
    method NotificationMessage(e: Event)
      modifies this`sent
      ensures sent == old(sent) + [e.message]
    {
      sent := sent + [e.message];
    }
  }

  /** A ride frame that decodes to something other than an object: the
      source's `payload.get` raises on it. */
  predicate RideFrameFails(payload: Option<Json>) {
    payload.Some? && !payload.value.JObj?
  }

  /** The group message a ride socket sends for a decoded frame: the frame's
      `action` (null when absent) and `data` (`{}` when absent). A frame that
      is not a JSON object makes `payload.get` raise, so nothing is sent. */
  function RideEcho(payload: Option<Json>): (e: Option<Event>)
    ensures e.Some? <==> payload.Some? && payload.value.JObj?
    ensures e.Some? ==> e.value.kind == "ride_event" && e.value.message.JObj?
    ensures e.Some? ==> var m := payload.value.fields;
      && e.value.message.fields.Keys == {"action", "data"}
      && e.value.message.fields["action"] == (if "action" in m then m["action"] else JNull)
      && e.value.message.fields["data"] == (if "data" in m then m["data"] else JObj(map[]))
  {
    match payload
    case Some(JObj(m)) =>
      Some(Event("ride_event", JObj(map[
        "action" := Get(m, "action", JNull),
        "data" := Get(m, "data", JObj(map[]))])))
    case _ => None
  }

  /** /ws/ride/<ride_id>/: everyone following one ride. */
  class RideConsumer {
    const channel: ChannelId
    const layer: ChannelLayer
    var rideId: Option<string>
    var groupName: Option<string>
    var state: SocketState
    var sent: seq<Json>

    /** The group is `ride_<id>` of the route's ride id, and an accepted
        socket has one. */
    predicate Valid()
      reads this
    {
      && (state == Connecting ==> groupName.None?)
      && (state == Open ==> groupName.Some?)
      && (groupName.Some? ==> rideId.Some? && groupName.value == RideGroup(rideId.value))
    }

    constructor (channel: ChannelId, layer: ChannelLayer)
      ensures this.channel == channel && this.layer == layer
      ensures rideId == None && groupName == None && state == Connecting && sent == []
      ensures Valid()
    {
      this.channel := channel;
      this.layer := layer;
      rideId := None;
      groupName := None;
      state := Connecting;
      sent := [];
    }

    /** Without a ride id the socket is closed and joins nothing; otherwise
        it joins exactly `ride_<id>` and is accepted. */
    method Connect(id: Option<string>)
      requires Valid() && state == Connecting
      modifies this, layer
      ensures Valid()
      ensures rideId == id
      ensures !RouteGiven(id) ==>
        state == Closed(None) && groupName == old(groupName) && layer.groups == old(layer.groups)
      ensures RouteGiven(id) ==>
        && groupName == Some(RideGroup(id.value)) && state == Open
        && Members(layer.groups, groupName.value) == Members(old(layer.groups), groupName.value) + {channel}
        && forall h :: h != groupName.value ==> Members(layer.groups, h) == Members(old(layer.groups), h)
      ensures layer.published == old(layer.published) && sent == old(sent)
    {
      rideId := id;
      if !RouteGiven(id) {
        state := Closed(None);
        return;
      }
      groupName := Some(RideGroup(id.value));
      layer.GroupAdd(RideGroup(id.value), channel);
      state := Open;
    }

    /** Leaves `ride_<id>`, keeping every other member. Returns false, with
        nothing changed, when connect set no group (the source's
        `self.group_name` then raises AttributeError). */
    method Disconnect() returns (left: bool)
      modifies layer
      ensures left == groupName.Some?
      ensures !left ==> layer.groups == old(layer.groups)
      ensures left ==>
        && Members(layer.groups, groupName.value) == Members(old(layer.groups), groupName.value) - {channel}
        && forall h :: h != groupName.value ==> Members(layer.groups, h) == Members(old(layer.groups), h)
      ensures layer.published == old(layer.published)
    {
      left := groupName.Some?;
      if left {
        layer.GroupDiscard(groupName.value, channel);
      }
    }

    /** Frames arrive only on an accepted socket. A decoded object is
        re-broadcast to `ride_<id>` as one `ride_event`; a frame that does
        not decode sends nothing; a decoded value that is not an object
        makes `payload.get` raise, so the consumer fails and sends nothing. */
    method Receive(payload: Option<Json>)
      requires Valid() && state == Open
      modifies this`state, layer
      ensures Valid()
      ensures layer.groups == old(layer.groups)
      ensures RideFrameFails(payload) ==> state == Failed && layer.published == old(layer.published)
      ensures !RideFrameFails(payload) ==>
        && state == old(state)
        && layer.published == old(layer.published) +
             (if RideEcho(payload).Some? then [Publication(RideGroup(rideId.value), RideEcho(payload).value)] else [])
    {
      match payload {
        case Some(JObj(m)) =>
          var action := Get(m, "action", JNull);
          var data := Get(m, "data", JObj(map[]));
          layer.GroupSend(groupName.value, Event("ride_event", JObj(map["action" := action, "data" := data])));
        case Some(_) =>
          state := Failed;
        case None =>
      }
    }

    /** `ride_event`: the event's message goes to the socket as is. */
    method RideEvent(e: Event)
      modifies this`sent
      ensures sent == old(sent) + [e.message]
    {
      sent := sent + [e.message];
    }
  }

  /** A driver frame on which the source raises: a decoded value that is
      not an object (`payload.get`), or a location frame whose `data` is not
      an object (`data.get`). */
  predicate DriverFrameFails(payload: Option<Json>) {
    && payload.Some?
    && (!payload.value.JObj?
        || (Get(payload.value.fields, "action", JNull) == JStr("location")
            && !Get(payload.value.fields, "data", JObj(map[])).JObj?))
  }

  /** The group message a driver socket sends for a decoded frame: only a
      JSON object whose `action` is "location" and whose `data` (default
      `{}`) is an object yields a `driver_location` event, carrying the
      route's driver id, the data's `lat` and `lng` and the frame's `ts`
      (each null when absent). */
  function DriverEcho(driverId: string, payload: Option<Json>): (e: Option<Event>)
    ensures e.Some? <==>
      && payload.Some? && payload.value.JObj?
      && Get(payload.value.fields, "action", JNull) == JStr("location")
      && Get(payload.value.fields, "data", JObj(map[])).JObj?
    ensures e.Some? ==> var m := payload.value.fields; var d := Get(m, "data", JObj(map[])).fields;
      && e.value.kind == "driver_location"
      && e.value.message == JObj(map[
           "driver_id" := JStr(driverId),
           "lat" := (if "lat" in d then d["lat"] else JNull),
           "lng" := (if "lng" in d then d["lng"] else JNull),
           "ts" := (if "ts" in m then m["ts"] else JNull)])
  {
    match payload
    case Some(JObj(m)) =>
      var action := Get(m, "action", JNull);
      var data := Get(m, "data", JObj(map[]));
      if action == JStr("location") && data.JObj? then
        Some(Event("driver_location", JObj(map[
          "driver_id" := JStr(driverId),
          "lat" := Get(data.fields, "lat", JNull),
          "lng" := Get(data.fields, "lng", JNull),
          "ts" := Get(m, "ts", JNull)])))
      else None
    case _ => None
  }

  /** /ws/driver/<driver_id>/: the location stream of one driver. */
  class DriverConsumer {
    const channel: ChannelId
    const layer: ChannelLayer
    var driverId: Option<string>
    var groupName: Option<string>
    var state: SocketState
    var sent: seq<Json>

    /** The group is `driver_<id>` of the route's driver id, and an
        accepted socket has one. */
    predicate Valid()
      reads this
    {
      && (state == Connecting ==> groupName.None?)
      && (state == Open ==> groupName.Some?)
      && (groupName.Some? ==> driverId.Some? && groupName.value == DriverGroup(driverId.value))
    }

    constructor (channel: ChannelId, layer: ChannelLayer)
      ensures this.channel == channel && this.layer == layer
      ensures driverId == None && groupName == None && state == Connecting && sent == []
      ensures Valid()
    {
      this.channel := channel;
      this.layer := layer;
      driverId := None;
      groupName := None;
      state := Connecting;
      sent := [];
    }

    /** Without a driver id the socket is closed and joins nothing;
        otherwise it joins exactly `driver_<id>` and is accepted. */
    method Connect(id: Option<string>)
      requires Valid() && state == Connecting
      modifies this, layer
      ensures Valid()
      ensures driverId == id
      ensures !RouteGiven(id) ==>
        state == Closed(None) && groupName == old(groupName) && layer.groups == old(layer.groups)
      ensures RouteGiven(id) ==>
        && groupName == Some(DriverGroup(id.value)) && state == Open
        && Members(layer.groups, groupName.value) == Members(old(layer.groups), groupName.value) + {channel}
        && forall h :: h != groupName.value ==> Members(layer.groups, h) == Members(old(layer.groups), h)
      ensures layer.published == old(layer.published) && sent == old(sent)
    {
      driverId := id;
      if !RouteGiven(id) {
        state := Closed(None);
        return;
      }
      groupName := Some(DriverGroup(id.value));
      layer.GroupAdd(DriverGroup(id.value), channel);
      state := Open;
    }

    /** Leaves `driver_<id>`, keeping every other member; false, with
        nothing changed, when connect set no group. */
    method Disconnect() returns (left: bool)
      modifies layer
      ensures left == groupName.Some?
      ensures !left ==> layer.groups == old(layer.groups)
      ensures left ==>
        && Members(layer.groups, groupName.value) == Members(old(layer.groups), groupName.value) - {channel}
        && forall h :: h != groupName.value ==> Members(layer.groups, h) == Members(old(layer.groups), h)
      ensures layer.published == old(layer.published)
    {
      left := groupName.Some?;
      if left {
        layer.GroupDiscard(groupName.value, channel);
      }
    }

    /** Frames arrive only on an accepted socket. Exactly one
        `driver_location` goes to `driver_<id>` when the frame is a location
        update; a frame that does not decode, or has another action, sends
        nothing; a decoded value that is not an object, or a location frame
        whose `data` is not an object, makes `.get` raise, so the consumer
        fails and sends nothing. */
    method Receive(payload: Option<Json>)
      requires Valid() && state == Open
      modifies this`state, layer
      ensures Valid()
      ensures layer.groups == old(layer.groups)
      ensures DriverFrameFails(payload) ==> state == Failed && layer.published == old(layer.published)
      ensures !DriverFrameFails(payload) ==>
        && state == old(state)
        && layer.published == old(layer.published) +
             (if DriverEcho(driverId.value, payload).Some?
              then [Publication(DriverGroup(driverId.value), DriverEcho(driverId.value, payload).value)] else [])
    {
      match payload {
        case Some(JObj(m)) =>
          var action := Get(m, "action", JNull);
          var data := Get(m, "data", JObj(map[]));
          if action == JStr("location") {
            if !data.JObj? {
              state := Failed;
              return;
            }
            layer.GroupSend(groupName.value, Event("driver_location", JObj(map[
              "driver_id" := JStr(driverId.value),
              "lat" := Get(data.fields, "lat", JNull),
              "lng" := Get(data.fields, "lng", JNull),
              "ts" := Get(m, "ts", JNull)])));
          }
        case Some(_) =>
          state := Failed;
        case None =>
      }
    }

    /** `driver_location`: the event's message goes to the socket as is. */
    method DriverLocation(e: Event)
      modifies this`sent
      ensures sent == old(sent) + [e.message]
    {
      sent := sent + [e.message];
    }
  }

  /** Only a location frame produces a driver event: any other action
      (or none) sends nothing, whatever else the frame holds. */
  lemma DriverIgnoresOtherActions(driverId: string, m: map<string, Json>)
    requires Get(m, "action", JNull) != JStr("location")
    ensures DriverEcho(driverId, Some(JObj(m))).None?
  {
  }

  /** A ride frame without `data` is sent on with `data` = `{}`. */
  lemma RideDataDefaults(m: map<string, Json>)
    requires "data" !in m
    ensures RideEcho(Some(JObj(m))).Some?
    ensures RideEcho(Some(JObj(m))).value.message.fields["data"] == JObj(map[])
  {
  }
}

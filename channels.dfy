/** The channel layer as the consumers and views use it: a registry from
    group name to the channels subscribed to it, and the log of everything
    sent to a group. Delivery itself is not part of this model; the members
    of a group at the time of a send are what `Members` gives. */
module Channels {
  import opened Common

  /** The name a connection has in the channel layer. */
  type ChannelId = string

  /** A group message: `type` selects the consumer handler, `message` is the payload. */
  datatype Event = Event(kind: string, message: Json)

  /** One `group_send`. */
  datatype Publication = Publication(group: string, event: Event)

  const UserPrefix: string := "user_"
  const RidePrefix: string := "ride_"
  const DriverPrefix: string := "driver_"

  function UserGroup(id: string): string { UserPrefix + id }
  function RideGroup(id: string): string { RidePrefix + id }
  function DriverGroup(id: string): string { DriverPrefix + id }

  /** The three kinds of group never share a name, whatever the ids. */
  lemma GroupKindsDisjoint(a: string, b: string)
    ensures RideGroup(a) != DriverGroup(b)
    ensures RideGroup(a) != UserGroup(b)
    ensures DriverGroup(a) != UserGroup(b)
  {
    assert RideGroup(a)[0] == 'r' && DriverGroup(b)[0] == 'd' && UserGroup(b)[0] == 'u';
    assert DriverGroup(a)[0] == 'd';
  }

  /** Within one kind, the group name determines the id. */
  lemma GroupNameInjective(a: string, b: string)
    ensures RideGroup(a) == RideGroup(b) ==> a == b
    ensures DriverGroup(a) == DriverGroup(b) ==> a == b
    ensures UserGroup(a) == UserGroup(b) ==> a == b
  {
    if RideGroup(a) == RideGroup(b) { assert a == RideGroup(a)[|RidePrefix|..]; }
    if DriverGroup(a) == DriverGroup(b) { assert a == DriverGroup(a)[|DriverPrefix|..]; }
    if UserGroup(a) == UserGroup(b) { assert a == UserGroup(a)[|UserPrefix|..]; }
  }

  /** The current members of a group; a group nobody joined is empty. */
  function Members(groups: map<string, set<ChannelId>>, g: string): set<ChannelId> {
    if g in groups then groups[g] else {}
  }

  class ChannelLayer {
    var groups: map<string, set<ChannelId>>
    var published: seq<Publication>

    constructor ()
      ensures groups == map[] && published == []
    {
      groups := map[];
      published := [];
    }

    /** `group_add`: the channel joins the group; no other group changes. */
    method GroupAdd(g: string, ch: ChannelId)
      modifies this
      ensures Members(groups, g) == Members(old(groups), g) + {ch}
      ensures forall h :: h != g ==> Members(groups, h) == Members(old(groups), h)
      ensures published == old(published)
    {
      groups := groups[g := Members(groups, g) + {ch}];
    }

    /** `group_discard`: the channel leaves the group and everyone else stays. */
    method GroupDiscard(g: string, ch: ChannelId)
      modifies this
      ensures Members(groups, g) == Members(old(groups), g) - {ch}
      ensures forall h :: h != g ==> Members(groups, h) == Members(old(groups), h)
      ensures published == old(published)
    {
      groups := groups[g := Members(groups, g) - {ch}];
    }

    /** `group_send`: one more entry in the log; membership is untouched.
        Sending to a group without members is not an error. */
    method GroupSend(g: string, e: Event)
      modifies this
      ensures published == old(published) + [Publication(g, e)]
      ensures groups == old(groups)
    {
      published := published + [Publication(g, e)];
    }
  }
}

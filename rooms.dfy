/** The server's room coordinator: a directory of connected users, a table of
    rooms, and the join protocol that updates both and notifies the room.

    The pure part (what a profile update stores, what a room looks like after a
    join, how its counts are derived) is written as functions with lemmas about
    them; the class `RoomsController` holds the two tables and the outbox and
    its methods are proved against those functions.
 */
module Rooms {
  import opened Entities

  /** How many members a room shows as featured. */
  const FeaturedLimit := 3

  // ---------------------------------------------------------------------------
  // Speaker counting

  /** The members flagged as speakers, in order (`users.filter(user => user.isSpeaker)`). */
  function Speakers(users: seq<Attendee>): (r: seq<Attendee>)
    ensures |r| <= |users|
    ensures forall a :: a in r ==> a in users && a.isSpeaker
    ensures forall a :: a in users && a.isSpeaker ==> a in r
    decreases |users|
  {
    if users == [] then []
    else
      assert forall a :: a in users ==> a == users[0] || a in users[1..];
      (if users[0].isSpeaker then [users[0]] else []) + Speakers(users[1..])
  }

  /** The positions of the speakers among the members: an independent account of the speaker count. */
  function SpeakerPositions(users: seq<Attendee>): set<int>
  {
    set i | 0 <= i < |users| && users[i].isSpeaker
  }

  lemma {:induction false} SpeakersAppend(users: seq<Attendee>, a: Attendee)
    ensures Speakers(users + [a]) == Speakers(users) + (if a.isSpeaker then [a] else [])
    decreases |users|
  {
    if users == [] {
      assert users + [a] == [a];
    } else {
      assert (users + [a])[0] == users[0];
      assert (users + [a])[1..] == users[1..] + [a];
      SpeakersAppend(users[1..], a);
    }
  }

  lemma PositionsAppend(users: seq<Attendee>, a: Attendee)
    ensures SpeakerPositions(users + [a]) == SpeakerPositions(users) + (if a.isSpeaker then {|users|} else {})
    ensures |users| !in SpeakerPositions(users)
  {
  }

  lemma {:induction false} SpeakerCountIsPositions(users: seq<Attendee>)
    ensures |Speakers(users)| == |SpeakerPositions(users)|
    decreases |users|
  {
    if users == [] {
      assert SpeakerPositions(users) == {};
    } else {
      var init, last := users[..|users| - 1], users[|users| - 1];
      assert users == init + [last];
      SpeakersAppend(init, last);
      SpeakerCountIsPositions(init);
      PositionsAppend(init, last);
    }
  }

  // ---------------------------------------------------------------------------
  // Derived room fields

  /** The featured members are the first `FeaturedLimit` members, or all of them if there are fewer. */
  ghost predicate FeaturedPrefix(featured: seq<Attendee>, users: seq<Attendee>)
  {
    && featured <= users
    && |featured| <= FeaturedLimit
    && (|users| >= FeaturedLimit ==> |featured| == FeaturedLimit)
    && (|users| < FeaturedLimit ==> featured == users)
  }

  /** The derived fields of a room agree with its member list. */
  ghost predicate CountsAgree(r: Room)
  {
    && r.attendeesCount == |r.users|
    && r.speakersCount == |SpeakerPositions(r.users)|
    && FeaturedPrefix(r.featuredAttendees, r.users)
  }

  /** `#mapRoom`: the room with the given fields and its counts and featured members recomputed. */
  function MapRoom(id: string, topic: Option<string>, owner: Attendee, users: seq<Attendee>): (r: Room)
    ensures r.id == id && r.topic == topic && r.owner == owner && r.users == users
    ensures CountsAgree(r)
  {
    SpeakerCountIsPositions(users);
    var featured := users[..if |users| < FeaturedLimit then |users| else FeaturedLimit];
    Room(id, topic, owner, users, featured, |Speakers(users)|, |users|)
  }

  // ---------------------------------------------------------------------------
  // Profile update

  /** `#user.get(userId) ?? {}`: the stored record, if any. */
  function Lookup(directory: map<string, Attendee>, userId: string): Option<Attendee>
  {
    if userId in directory then Some(directory[userId]) else None
  }

  function EarlierId(earlier: Option<Attendee>): Option<string>
  {
    if earlier.Some? then earlier.value.id else None
  }

  function EarlierUsername(earlier: Option<Attendee>): Option<string>
  {
    if earlier.Some? then earlier.value.username else None
  }

  function EarlierImg(earlier: Option<Attendee>): Option<string>
  {
    if earlier.Some? then earlier.value.img else None
  }

  /** `#updateGlobalUserData`: the record stored for a connection, built from the
      earlier record, then the update, then the room id and the speaker flag. */
  function UpdatedUserData(earlier: Option<Attendee>, userData: UserPayload, roomId: string, existingRoom: bool): (r: Attendee)
    // the room id and the speaker flag are always overwritten, whatever the earlier record or the update said
    ensures r.roomId == roomId
    ensures r.isSpeaker == !existingRoom
    // a property the update carries wins; one it leaves out keeps its earlier value
    ensures userData.id.Some? ==> r.id == userData.id
    ensures userData.id.None? ==> r.id == EarlierId(earlier)
    ensures userData.username.Some? ==> r.username == userData.username
    ensures userData.username.None? ==> r.username == EarlierUsername(earlier)
    ensures userData.img.Some? ==> r.img == userData.img
    ensures userData.img.None? ==> r.img == EarlierImg(earlier)
  {
    Attendee(
      Spread(EarlierId(earlier), userData.id),
      Spread(EarlierUsername(earlier), userData.username),
      Spread(EarlierImg(earlier), userData.img),
      roomId,
      !existingRoom)
  }

  /** The record `joinRoom` stores for the joining connection: the update carries
      the connection id in place of whatever id the client sent. */
  function JoinerRecord(directory: map<string, Attendee>, rooms: map<string, Room>,
                        connection: string, user: UserPayload, roomId: string): (r: Attendee)
    ensures r.id == Some(connection)
    ensures r.roomId == roomId
    ensures r.isSpeaker <==> roomId !in rooms
  {
    UpdatedUserData(Lookup(directory, connection), user.(id := Some(connection)), roomId, roomId in rooms)
  }

  // ---------------------------------------------------------------------------
  // Joining a room

  /** `#joinUserRoom`: the room stored under `room.id` once `user` has joined it. */
  function JoinedRoom(rooms: map<string, Room>, user: Attendee, room: RoomPayload): (r: Room)
    ensures r.id == room.id
    ensures CountsAgree(r)
  {
    var existingRoom := room.id in rooms;
    var currentUser := user.(roomId := room.id);
    var owner := if existingRoom then rooms[room.id].owner else currentUser;
    var users := if existingRoom then rooms[room.id].users else [];
    var topic := Spread(if existingRoom then rooms[room.id].topic else None, room.topic);
    MapRoom(room.id, topic, owner, users + [currentUser])
  }

  /** The first to join a room id creates the room, owns it, is its only member and its only speaker. */
  lemma FounderOwnsAndSpeaks(directory: map<string, Attendee>, rooms: map<string, Room>,
                             connection: string, user: UserPayload, room: RoomPayload)
    requires room.id !in rooms
    ensures var u := JoinerRecord(directory, rooms, connection, user, room.id);
            var r := JoinedRoom(rooms, u, room);
            && u.isSpeaker
            && r.owner == u
            && r.users == [u]
            && r.attendeesCount == 1
            && r.speakersCount == 1
            && r.featuredAttendees == [u]
            && r.topic == room.topic
  {
  }

  /** Joining an existing room makes the joiner a listener, whatever its earlier
      record or its request said, keeps the owner, appends the joiner after the
      earlier members without looking for an earlier entry with the same id, and
      takes the topic from the request when it carries one. */
  lemma LaterJoinerListens(directory: map<string, Attendee>, rooms: map<string, Room>,
                           connection: string, user: UserPayload, room: RoomPayload)
    requires room.id in rooms
    ensures var u := JoinerRecord(directory, rooms, connection, user, room.id);
            var before := rooms[room.id];
            var r := JoinedRoom(rooms, u, room);
            && !u.isSpeaker
            && r.owner == before.owner
            && r.users == before.users + [u]
            && r.users[|r.users| - 1] == u
            && r.topic == (if room.topic.Some? then room.topic else before.topic)
  {
  }

  /** A join onto a room whose counts agree with its members adds exactly one member,
      and one speaker exactly when the joiner is a speaker. */
  lemma JoinCountsGrowByOne(rooms: map<string, Room>, user: Attendee, room: RoomPayload)
    requires room.id in rooms && CountsAgree(rooms[room.id])
    ensures var before := rooms[room.id];
            var r := JoinedRoom(rooms, user, room);
            && r.attendeesCount == before.attendeesCount + 1
            && r.speakersCount == before.speakersCount + (if user.isSpeaker then 1 else 0)
  {
    var before := rooms[room.id];
    var u := user.(roomId := room.id);
    var r := JoinedRoom(rooms, user, room);
    assert r.users == before.users + [u];
    PositionsAppend(before.users, u);
  }

  // ---------------------------------------------------------------------------
  // What every stored room satisfies

  /** A stored room: keyed by its id, non-empty, founded by its owner, who is its
      first member and its only speaker; every member records the room's id; and
      the derived fields agree with the members. */
  ghost predicate RoomInvariant(key: string, r: Room)
  {
    && r.id == key
    && |r.users| > 0
    && r.owner == r.users[0]
    && r.owner.isSpeaker
    && (forall i :: 1 <= i < |r.users| ==> !r.users[i].isSpeaker)
    && (forall i :: 0 <= i < |r.users| ==> r.users[i].roomId == key)
    && CountsAgree(r)
  }

  /** Every member of a stored room has an id, and that connection was joined to the room's channel. */
  ghost predicate MembersOnChannel(key: string, r: Room, outbox: seq<Outbound>)
  {
    forall i :: 0 <= i < |r.users| ==> r.users[i].id.Some? && JoinChannel(r.users[i].id.value, key) in outbox
  }

  ghost predicate ValidState(rooms: map<string, Room>, outbox: seq<Outbound>)
  {
    forall key :: key in rooms ==> RoomInvariant(key, rooms[key]) && MembersOnChannel(key, rooms[key], outbox)
  }

  /** In every stored room there is exactly one speaker: its owner. */
  lemma OneSpeakerPerRoom(key: string, r: Room)
    requires RoomInvariant(key, r)
    ensures r.speakersCount == 1
    ensures Speakers(r.users) == [r.owner]
  {
    assert SpeakerPositions(r.users) == {0};
    SpeakerCountIsPositions(r.users);
    var s := Speakers(r.users);
    assert r.owner in s;
    assert forall a :: a in s ==> a == r.owner by {
      forall a | a in s ensures a == r.owner {
        var i :| 0 <= i < |r.users| && r.users[i] == a;
        assert i == 0;
      }
    }
    assert |s| == 1;
  }

  /** The join protocol keeps every stored room valid. */
  lemma JoinKeepsValidState(directory: map<string, Attendee>, rooms: map<string, Room>, outbox: seq<Outbound>,
                            connection: string, user: UserPayload, room: RoomPayload, later: seq<Outbound>)
    requires ValidState(rooms, outbox)
    ensures var u := JoinerRecord(directory, rooms, connection, user, room.id);
            ValidState(rooms[room.id := JoinedRoom(rooms, u, room)], outbox + [JoinChannel(connection, room.id)] + later)
  {
  }

  /** Sending more messages keeps every stored room valid. */
  lemma MoreMessagesKeepValidState(rooms: map<string, Room>, outbox: seq<Outbound>, later: seq<Outbound>)
    requires ValidState(rooms, outbox)
    ensures ValidState(rooms, outbox + later)
  {
  }

  // ---------------------------------------------------------------------------
  // The coordinator

  /** The process-wide state of the coordinator: the directory of connected users
      (`#user`), the room table (`rooms`), and what it has asked the transport to do. */
  class RoomsController {
    var directory: map<string, Attendee>
    var rooms: map<string, Room>
    var outbox: seq<Outbound>

    ghost predicate Valid()
      reads this
    {
      ValidState(rooms, outbox)
    }

    constructor ()
      ensures Valid()
      ensures directory == map[] && rooms == map[] && outbox == []
    {
      directory := map[];
      rooms := map[];
      outbox := [];
    }

    /** `#updateGlobalUserData`: merges `userData` onto the stored record and returns what it stored.
        An internal step of `OnNewConnection` and `JoinRoom`. */
    method UpdateGlobalUserData(userId: string, userData: UserPayload, roomId: string) returns (r: Attendee)
      requires Valid()
      modifies this`directory
      ensures Valid()
      ensures r == UpdatedUserData(Lookup(old(directory), userId), userData, roomId, roomId in rooms)
      ensures directory == old(directory)[userId := r]
      ensures r == directory[userId]
    {
      var user := Lookup(directory, userId);
      var existingRoom := roomId in rooms;
      var updatedUserData := UpdatedUserData(user, userData, roomId, existingRoom);
      directory := directory[userId := updatedUserData];
      r := directory[userId];
    }

    /** `#joinUserRoom`: stores the room as it is once `user` has joined and joins the
        connection to the room's channel. An internal step of `JoinRoom`: it keeps
        `Valid()` only for the record `JoinRoom` passes it (`JoinKeepsValidState`),
        not for an arbitrary `user`. */
    method JoinUserRoom(connection: string, user: Attendee, room: RoomPayload) returns (r: Room)
      modifies this`rooms, this`outbox
      ensures r == JoinedRoom(old(rooms), user, room)
      ensures rooms == old(rooms)[room.id := r]
      ensures outbox == old(outbox) + [JoinChannel(connection, room.id)]
    {
      var roomId := room.id;
      var updatedRoom := JoinedRoom(rooms, user, room);
      rooms := rooms[roomId := updatedRoom];
      outbox := outbox + [JoinChannel(connection, roomId)];
      r := rooms[roomId];
    }

    /** `#notifyUsersOnRoom`: `USER_CONNECTED` to the room, leaving out the sender.
        An internal step of `JoinRoom`. */
    method NotifyUsersOnRoom(connection: string, roomId: string, user: Attendee)
      requires Valid()
      modifies this`outbox
      ensures Valid()
      ensures outbox == old(outbox) + [EmitToRoom(roomId, connection, UserConnected(user))]
    {
      MoreMessagesKeepValidState(rooms, outbox, [EmitToRoom(roomId, connection, UserConnected(user))]);
      outbox := outbox + [EmitToRoom(roomId, connection, UserConnected(user))];
    }

    /** `#replyWithActiveUsers`: `LOBBY_UPDATED` with the member list, to the caller alone.
        An internal step of `JoinRoom`. */
    method ReplyWithActiveUsers(connection: string, users: seq<Attendee>)
      requires Valid()
      modifies this`outbox
      ensures Valid()
      ensures outbox == old(outbox) + [Emit(connection, LobbyUpdated(users))]
    {
      MoreMessagesKeepValidState(rooms, outbox, [Emit(connection, LobbyUpdated(users))]);
      outbox := outbox + [Emit(connection, LobbyUpdated(users))];
    }

    /** `onNewConnection`: registers the connection with no room; nothing is sent. */
    method OnNewConnection(connection: string)
      requires Valid()
      modifies this`directory
      ensures Valid()
      ensures directory == old(directory)[connection := UpdatedUserData(Lookup(old(directory), connection), NoUserData, "", "" in rooms)]
      ensures directory[connection].roomId == ""
      ensures rooms == old(rooms) && outbox == old(outbox)
    {
      var _ := UpdateGlobalUserData(connection, NoUserData, "");
    }

    /** `joinRoom`: the connection joins `request.room` with the profile in
        `request.user`. A request without a user or a room object fails before
        anything changes (the source throws at the `user.id` assignment or the
        `room.id` read). */
    method JoinRoom(connection: string, request: JoinRequest) returns (accepted: bool)
      requires Valid()
      modifies this`directory, this`rooms, this`outbox
      ensures Valid()
      ensures accepted <==> request.user.Some? && request.room.Some?
      ensures !accepted ==> directory == old(directory) && rooms == old(rooms) && outbox == old(outbox)
      ensures accepted ==>
                var room := request.room.value;
                var u := JoinerRecord(old(directory), old(rooms), connection, request.user.value, room.id);
                && directory == old(directory)[connection := u]
                && rooms == old(rooms)[room.id := JoinedRoom(old(rooms), u, room)]
                && outbox == old(outbox) + [JoinChannel(connection, room.id),
                                            EmitToRoom(room.id, connection, UserConnected(u)),
                                            Emit(connection, LobbyUpdated(rooms[room.id].users))]
    {
      if request.user.None? || request.room.None? {
        return false;
      }
      var user := request.user.value.(id := Some(connection));
      var room := request.room.value;
      var roomId := room.id;

      ghost var directory0, rooms0, outbox0 := directory, rooms, outbox;
      var updatedUserData := UpdateGlobalUserData(connection, user, roomId);
      var updatedRoom := JoinUserRoom(connection, updatedUserData, room);
      JoinKeepsValidState(directory0, rooms0, outbox0, connection, request.user.value, room, []);
      NotifyUsersOnRoom(connection, roomId, updatedUserData);
      ReplyWithActiveUsers(connection, updatedRoom.users);
      accepted := true;
    }
  }

  /** A client of the coordinator: two connections join room "R1" one after the
      other; everything asserted follows from the contracts above. */
  method TwoJoinsScenario()
  {
    var c := new RoomsController();
    c.OnNewConnection("c1");
    c.OnNewConnection("c2");
    var room := RoomPayload("R1", Some("news"));

    var ok := c.JoinRoom("c1", JoinRequest(Some(UserPayload(Some("spoofed"), Some("A"), None, None, None)), Some(room)));
    assert ok;
    var first := c.directory["c1"];
    assert first.id == Some("c1") && first.username == Some("A") && first.isSpeaker;
    assert c.rooms["R1"].owner == first && c.rooms["R1"].users == [first];
    assert c.rooms["R1"].attendeesCount == 1;

    ok := c.JoinRoom("c2", JoinRequest(Some(UserPayload(None, Some("B"), None, None, Some(true))), Some(RoomPayload("R1", None))));
    assert ok;
    var second := c.directory["c2"];
    assert !second.isSpeaker;
    assert c.rooms["R1"].owner == first && c.rooms["R1"].users == [first, second];
    assert c.rooms["R1"].attendeesCount == 2 && c.rooms["R1"].topic == Some("news");
    OneSpeakerPerRoom("R1", c.rooms["R1"]);
    assert c.rooms["R1"].speakersCount == 1;
    assert c.outbox[|c.outbox| - 2] == EmitToRoom("R1", "c2", UserConnected(second));
    assert c.outbox[|c.outbox| - 1] == Emit("c2", LobbyUpdated([first, second]));

    ok := c.JoinRoom("c3", JoinRequest(None, Some(room)));
    assert !ok && c.rooms["R1"].users == [first, second];
  }
}

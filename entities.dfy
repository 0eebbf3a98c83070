/** The records the room coordinator stores and sends.

    The server's `Attendee` and `Room` entity classes only copy the fields of the
    object they are built from, so they are plain datatypes here.  A property a
    JavaScript object literal may or may not carry is an `Option`: `None` is an
    absent property, which a later spread does not override.
 */
module Entities {

  datatype Option<T> = None | Some(value: T)

  /** The value of a property after `{ ...earlier, ...later }`. */
  function Spread<T>(earlier: Option<T>, later: Option<T>): Option<T>
  {
    if later.Some? then later else earlier
  }

  /** One connection's profile, as stored in the directory and in a room's members. */
  datatype Attendee = Attendee(
    id: Option<string>,
    username: Option<string>,
    img: Option<string>,
    roomId: string,
    isSpeaker: bool)

  /** The `user` object a client sends with a join request; every property is optional. */
  datatype UserPayload = UserPayload(
    id: Option<string>,
    username: Option<string>,
    img: Option<string>,
    roomId: Option<string>,
    isSpeaker: Option<bool>)

  /** The profile update of a fresh connection: no properties at all. */
  const NoUserData := UserPayload(None, None, None, None, None)

  /** The `room` object a client sends with a join request. */
  datatype RoomPayload = RoomPayload(id: string, topic: Option<string>)

  /** The body of a join request: `{ user, room }`, either of which a client may leave out. */
  datatype JoinRequest = JoinRequest(user: Option<UserPayload>, room: Option<RoomPayload>)

  /** A room with its members in join order and the counts derived from them. */
  datatype Room = Room(
    id: string,
    topic: Option<string>,
    owner: Attendee,
    users: seq<Attendee>,
    featuredAttendees: seq<Attendee>,
    speakersCount: nat,
    attendeesCount: nat)

  /** The events the coordinator sends, with their payloads. */
  datatype Notice =
    | UserConnected(user: Attendee)
    | LobbyUpdated(users: seq<Attendee>)

  /** What the coordinator asks of the transport, in the order it asks. */
  datatype Outbound =
    | JoinChannel(connection: string, roomId: string)
    | EmitToRoom(roomId: string, exceptConnection: string, notice: Notice)
    | Emit(connection: string, notice: Notice)
}

# Room coordinator of a drop-in audio-room server, in Dafny

The server keeps two process-wide tables. The first is a directory that maps each
connection id to that user's profile (`#user`). The second is a room table that maps
each room id to the room (`rooms`). Two socket events change them:

- **A new connection** registers a bare profile that has no room.
- **A join request** `{ user, room }` does five things:
  - it stamps the connection id onto the user;
  - it merges the user onto the stored profile;
  - it creates the room if the id is new (the joiner becomes owner and speaker), or appends the joiner to the existing room's members;
  - it recomputes the room's featured members and counts;
  - it tells the other members (`USER_CONNECTED`) and the caller (`LOBBY_UPDATED`).

The model is in two files:

- `entities.dfy` (module `Entities`) holds the records: `Attendee`, `Room`, the request payloads, and what the coordinator asks of the transport (`Outbound`).
  - A JavaScript property that may be absent is an `Option`.
  - `Spread` is what `{ ...earlier, ...later }` gives for one property.
- `rooms.dfy` (module `Rooms`) holds the rest.
  - Pure functions say what a profile update stores (`UpdatedUserData`, `JoinerRecord`), how a room's derived fields are computed (`MapRoom`, `Speakers`) and what room a join stores (`JoinedRoom`). Lemmas about them state the protocol's properties.
  - The class `RoomsController` holds `directory`, `rooms` and an append-only `outbox`. Its methods are proved against those functions. Its invariant `Valid()` holds for every stored room:
    - the room is keyed by its id;
    - it is non-empty;
    - its owner is its first member and is a speaker;
    - no other member is a speaker;
    - every member carries the room's id;
    - its counts and featured members agree with the members;
    - every member's connection has a recorded channel join (`JoinChannel`) for the room.

The model follows the code as written, including where a coordinator might be expected to behave otherwise:

- A join appends a freshly built record to the room's `Set`, so a connection that joins the same room twice is listed twice. There is no replacement of a stale entry with the same id (`LaterJoinerListens`).
- Joining a second room leaves the connection listed in the first one, because the code has no leave step.
- The code never checks a join request. A request without a `user` or a `room` object throws at line 93 (no user) or line 94 (no room), before anything changes. `JoinRoom` then returns `false` and leaves every table unchanged. There is no separate invalid-request reply.
- The code has no disconnect handler, no room deletion and no owner succession, so neither does the model. With no promotion, every room has exactly one speaker, its founder (`OneSpeakerPerRoom`).

## Model

| member | source | states |
|---|---|---|
| `Rooms.UpdatedUserData` | server/src/controllers/roomsController.js:11-21 | the stored record always takes the given room id, and is a speaker exactly when that room does not exist yet, whatever the earlier record or the update said; each of id, username and img comes from the update when it carries it and keeps the earlier record's value otherwise |
| `Rooms.JoinerRecord` | server/src/controllers/roomsController.js:93-100 | the record a join stores has the connection id (never the client's), the joined room's id, and is a speaker exactly when the room id is not in the room table |
| `Rooms.Speakers` | server/src/controllers/roomsController.js:30 | the filtered list is no longer than the members and holds exactly the members flagged as speakers |
| `Rooms.SpeakersAppend` | server/src/controllers/roomsController.js:30 | filtering a member list extended by one member extends the filtered list by that member exactly when it is a speaker |
| `Rooms.SpeakerCountIsPositions` | server/src/controllers/roomsController.js:30 | the length of the filtered list equals the number of positions holding a speaker |
| `Rooms.MapRoom` | server/src/controllers/roomsController.js:28-40 | id, topic, owner and members are kept; the attendee count is the number of members, the speaker count the number of members flagged as speakers, and the featured members a prefix of the members of length min(3, n) |
| `Rooms.JoinedRoom` | server/src/controllers/roomsController.js:53-72 | the room a join stores is keyed by the requested id and its counts and featured members agree with its members |
| `Rooms.FounderOwnsAndSpeaks` | server/src/controllers/roomsController.js:55-72 | joining an unknown room id creates it with the joiner as owner, only member, only featured member and a speaker; counts are 1 and 1; the topic is the request's |
| `Rooms.LaterJoinerListens` | server/src/controllers/roomsController.js:55-72 | joining an existing room makes the joiner a non-speaker, keeps the owner, appends the joiner's record after the earlier members in order with no deduplication, and takes the request's topic when it has one and the stored topic otherwise |
| `Rooms.JoinCountsGrowByOne` | server/src/controllers/roomsController.js:67-72 | a join onto an existing room with consistent counts raises the attendee count by exactly one and the speaker count by one exactly when the joiner is a speaker |
| `Rooms.OneSpeakerPerRoom` | server/src/controllers/roomsController.js:13-21 | in every stored room the only speaker is the owner, so the speaker count is 1 |
| `Rooms.JoinKeepsValidState` | server/src/controllers/roomsController.js:90-109 | a join keeps every room invariant: founder is owner, first member and sole speaker; counts agree; members carry the room id; every member has a recorded channel join for the room |
| `Rooms.MoreMessagesKeepValidState` | server/src/controllers/roomsController.js:42-51 | sending further messages never breaks a room invariant (used by the two emit steps) |
| `Rooms.RoomsController.constructor` | server/src/controllers/roomsController.js:6-9 | both tables and the outbox start empty, and the invariant holds |
| `Rooms.RoomsController.UpdateGlobalUserData` | server/src/controllers/roomsController.js:11-26 | only the caller's directory entry changes; it becomes the merged record, which is returned and is exactly what is stored; the invariant is kept |
| `Rooms.RoomsController.JoinUserRoom` | server/src/controllers/roomsController.js:53-79 | only the joined room's entry changes, to the joined room; the connection is joined to the room's channel; the stored room is returned. An internal step of `JoinRoom`: it keeps the invariant only for the record `JoinRoom` passes it |
| `Rooms.RoomsController.NotifyUsersOnRoom` | server/src/controllers/roomsController.js:48-51 | appends one `USER_CONNECTED` with the user, addressed to the room and leaving out the sender; the invariant is kept |
| `Rooms.RoomsController.ReplyWithActiveUsers` | server/src/controllers/roomsController.js:42-46 | appends one `LOBBY_UPDATED` with the member list, addressed to the caller alone; the invariant is kept |
| `Rooms.RoomsController.OnNewConnection` | server/src/controllers/roomsController.js:83-88 | only the caller's directory entry changes, to a record with room id `""`; the room table and the outbox are unchanged; the invariant is kept |
| `Rooms.RoomsController.JoinRoom` | server/src/controllers/roomsController.js:90-109 | a request without a user or room object changes nothing. Otherwise only the caller's directory entry and the joined room's entry change, to the joiner record and the joined room. The outbox gains, in order, the channel join, `USER_CONNECTED` with the stored record to the room except the caller, and `LOBBY_UPDATED` with the full member list to the caller. The invariant is kept |

## Left out

- The socket transport (`socket.join`, `socket.emit`, `socket.to(...).emit`, lines 45, 50 and 76) is I/O. It is modelled only as records appended to `outbox`. Delivery, and which sockets a room broadcast actually reaches, are not modelled.
- The `console.log` calls (lines 85, 91, 104) are logging only.
- `getEvents` (lines 111-117) builds the event table by reflection over the class prototype. That has no counterpart in Dafny.
- The `Attendee` and `Room` entity classes and the event-name constants are not part of this model. Their constructors are taken to copy exactly the fields listed in `entities.dfy`. Events are the constructors of `Notice` rather than wire strings.
- A room payload without an `id` would key the room under `undefined`. Room ids are strings here, so that case is not modelled.
- A property the client sends as `null` (or `undefined`) is not modelled. Spread last, a `null` clears the stored field (`img: null` is stored), but an `Option<string>` field can only be absent (`None`, which keeps the earlier value) or a string.
- Object identity is not modelled. The members are a sequence of values, and the room keeps one entry per join, as the source's `Set` of freshly built objects does.
- The client pages (room view, room controller, lobby bootstrap) are DOM and socket wiring, and are not modelled.

/**
 * The room API (src/routes/api/room/+server.ts): `POST` dispatches on the
 * body's `key` to create, rename or close a room, and `DELETE` removes a
 * room. The room table is a map from room id to row; the id a new row gets
 * from the database is a parameter, and the events sent on the room's
 * realtime channel are recorded in order.
 */
module RoomRoute {
  import opened Wrappers
  import opened Text
  import opened Schema

  /** The `value` of a `POST` body, with the fields each key reads. */
  datatype RoomValue = RoomValue(name: string, password: Option<string>, isPublic: Option<bool>, roomId: string)

  /**
   * The answers of the two handlers. `BodyUnreadable` is the error thrown when
   * the request body does not parse as JSON, or is `null` so that its
   * destructuring throws; the framework answers it with 500.
   */
  datatype RoomResponse =
    | BodyUnreadable
    | Unauthorized
    | Created(room: Room)
    | Success
  {
    function Status(): int {
      if BodyUnreadable? then 500 else if Unauthorized? then 401 else 200
    }
  }

  /** An event sent on a realtime channel. */
  datatype ChannelEvent = ChannelEvent(channel: string, event: string)

  /** The room name as stored: the first 20 characters, trimmed. */
  function RoomName(name: string): (r: string)
    ensures |r| <= 20
    ensures r == [] || (!IsJsWhitespace(r[0]) && !IsJsWhitespace(r[|r| - 1]))
  {
    TakeTrim(name, 20)
  }

  /** A stored name is stored unchanged when given again. */
  lemma RoomNameIdempotent(name: string)
    ensures RoomName(RoomName(name)) == RoomName(name)
  {
    TakeTrimIdempotent(name, 20);
  }

  /** The row `createRoom` inserts: no members, an empty queue, public unless told otherwise. */
  function NewRoom(id: string, value: RoomValue, user: UserData): (r: Room)
    ensures r.id == id && r.name == RoomName(value.name) && r.hostUserId == user.id && r.host == user
    ensures value.password.None? ==> r.password == ""
    ensures value.password.Some? ==> r.password == value.password.value
    ensures r.members == [] && r.queue == []
  {
    Room(id, RoomName(value.name), value.password.GetOr(""), user.id, user, [], [], value.isPublic.GetOr(true))
  }

  /** `renameRoom(db, id, name)`: the row with that id, if any, takes the name. */
  function Renamed(rooms: map<string, Room>, id: string, name: string): (r: map<string, Room>)
    ensures r.Keys == rooms.Keys
    ensures id in rooms ==> r[id] == rooms[id].(name := name)
    ensures forall k :: k in rooms && k != id ==> r[k] == rooms[k]
  {
    if id in rooms then rooms[id := rooms[id].(name := name)] else rooms
  }

  /** Renaming twice to the same name is renaming once. */
  lemma RenamedIdempotent(rooms: map<string, Room>, id: string, name: string)
    ensures Renamed(Renamed(rooms, id, name), id, name) == Renamed(rooms, id, name)
  {
  }

  /** `deleteRoom(db, id)`: the row with that id, if any, is gone; the others stay. */
  function Removed(rooms: map<string, Room>, id: string): (r: map<string, Room>)
    ensures r.Keys == rooms.Keys - {id}
    ensures forall k :: k in r ==> r[k] == rooms[k]
  {
    rooms - {id}
  }

  /** Deleting an id that is not there changes nothing, so deleting twice is deleting once. */
  lemma RemovedIdempotent(rooms: map<string, Room>, id: string)
    ensures Removed(Removed(rooms, id), id) == Removed(rooms, id)
    ensures id !in rooms ==> Removed(rooms, id) == rooms
  {
  }

  /** The realtime channel of a room's events. */
  function EventsChannel(roomId: string): string {
    "room:" + roomId + "-events"
  }

  class RoomApi {
    var rooms: map<string, Room>
    var sent: seq<ChannelEvent>

    constructor (rooms: map<string, Room>)
      ensures this.rooms == rooms && sent == []
    {
      this.rooms := rooms;
      sent := [];
    }

    /**
     * `POST` with the caller (if logged in), whether the body parses as
     * JSON other than `null`, the body's `key` and `value`, and `newId`, the
     * id the database gives a created room. The body is read before the caller is checked, and only
     * logging in is checked: any caller may rename or close any room.
     */
    method Post(user: Option<UserData>, bodyNonNull: bool, key: Option<string>, value: RoomValue, newId: string)
      returns (resp: RoomResponse)
      modifies this
      ensures !bodyNonNull ==> resp == BodyUnreadable && rooms == old(rooms) && sent == old(sent)
      ensures bodyNonNull && user.None? ==> resp == Unauthorized && rooms == old(rooms) && sent == old(sent)
      ensures bodyNonNull && user.Some? && key == Some("create_room") ==>
        && resp == Created(NewRoom(newId, value, user.value))
        && rooms == old(rooms)[newId := NewRoom(newId, value, user.value)] && sent == old(sent)
      ensures bodyNonNull && user.Some? && key == Some("rename_room") ==>
        resp == Success && rooms == Renamed(old(rooms), value.roomId, RoomName(value.name)) && sent == old(sent)
      ensures bodyNonNull && user.Some? && key == Some("host_disconnect") ==>
        && resp == Success && rooms == Removed(old(rooms), value.roomId)
        && sent == old(sent) + [ChannelEvent(EventsChannel(value.roomId), "host_disconnect")]
      ensures bodyNonNull && user.Some? && key !in {Some("create_room"), Some("rename_room"), Some("host_disconnect")} ==>
        resp == Success && rooms == old(rooms) && sent == old(sent)
    {
      if !bodyNonNull {
        return BodyUnreadable;
      }
      if user.None? {
        return Unauthorized;
      }
      if key == Some("create_room") {
        var room := NewRoom(newId, value, user.value);
        rooms := rooms[newId := room];
        return Created(room);
      } else if key == Some("rename_room") {
        rooms := Renamed(rooms, value.roomId, RoomName(value.name));
      } else if key == Some("host_disconnect") {
        sent := sent + [ChannelEvent(EventsChannel(value.roomId), "host_disconnect")];
        rooms := Removed(rooms, value.roomId);
      }
      return Success;
    }

    /**
     * `DELETE` with the caller (if logged in), whether the body parses as
     * JSON other than `null`, and the body's `id`; the body is read first,
     * and again only logging in is checked.
     */
    method Delete(user: Option<UserData>, bodyNonNull: bool, id: string) returns (resp: RoomResponse)
      modifies this
      ensures !bodyNonNull ==> resp == BodyUnreadable && rooms == old(rooms)
      ensures bodyNonNull && user.None? ==> resp == Unauthorized && rooms == old(rooms)
      ensures bodyNonNull && user.Some? ==> resp == Success && rooms == Removed(old(rooms), id)
      ensures sent == old(sent)
    {
      if !bodyNonNull {
        return BodyUnreadable;
      }
      if user.None? {
        return Unauthorized;
      }
      rooms := Removed(rooms, id);
      return Success;
    }
  }
}

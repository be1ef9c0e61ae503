/**
 * The room list page loader (src/routes/room/+page.server.ts): a logged-in
 * user who hosts or has joined a room is sent to the first such room; anyone
 * else logged in sees the whole list.
 */
module RoomPage {
  import opened Wrappers
  import opened Schema

  /** What `load` gives: a redirect, or the page data. */
  datatype LoadResult = Redirect(location: string) | Rooms(rooms: seq<Room>)

  /** The user is among the room's members, compared by id. */
  predicate IsMember(room: Room, userId: string) {
    exists k :: 0 <= k < |room.members| && room.members[k].id == userId
  }

  /** The test of the loop: the user hosts the room or is one of its members. */
  predicate InRoom(room: Room, userId: string) {
    room.hostUserId == userId || IsMember(room, userId)
  }

  /** Hosting a room is enough on its own, and so is being a member. */
  lemma EitherSuffices(room: Room, userId: string, k: nat)
    ensures room.hostUserId == userId ==> InRoom(room, userId)
    ensures k < |room.members| && room.members[k].id == userId ==> InRoom(room, userId)
  {
  }

  /** The position of the first room the user is in. */
  function FirstRoom(rooms: seq<Room>, userId: string): (r: Option<nat>)
    ensures r.Some? ==> r.value < |rooms| && InRoom(rooms[r.value], userId)
    ensures r.Some? ==> forall k :: 0 <= k < r.value ==> !InRoom(rooms[k], userId)
    ensures r.None? ==> forall k :: 0 <= k < |rooms| ==> !InRoom(rooms[k], userId)
  {
    if rooms == [] then None
    else if InRoom(rooms[0], userId) then Some(0)
    else
      match FirstRoom(rooms[1..], userId)
      case None => None
      case Some(i) => Some(i + 1)
  }

  /** The page of a room. */
  function RoomPath(room: Room): string {
    "/room/" + room.id
  }

  /** What `load` answers for the user (if logged in) and the room list. */
  function LoadFor(user: Option<UserData>, rooms: seq<Room>): (r: LoadResult)
    ensures user.None? ==> r == Redirect("/")
    ensures user.Some? && FirstRoom(rooms, user.value.id).Some? ==>
      r == Redirect(RoomPath(rooms[FirstRoom(rooms, user.value.id).value]))
    ensures user.Some? && FirstRoom(rooms, user.value.id).None? ==> r == Rooms(rooms)
  {
    if user.None? then Redirect("/")
    else
      match FirstRoom(rooms, user.value.id)
      case Some(i) => Redirect(RoomPath(rooms[i]))
      case None => Rooms(rooms)
  }

  /** `load`, with the list `getRooms` returns: the loop stops at the first room the user is in. */
  method Load(user: Option<UserData>, rooms: seq<Room>) returns (r: LoadResult)
    ensures r == LoadFor(user, rooms)
  {
    if user.None? {
      return Redirect("/");
    }
    var id := user.value.id;
    for i := 0 to |rooms|
      invariant forall k :: 0 <= k < i ==> !InRoom(rooms[k], id)
    {
      var room := rooms[i];
      if room.hostUserId == id || exists k :: 0 <= k < |room.members| && room.members[k].id == id {
        FirstRoomIs(rooms, id, i);
        return Redirect(RoomPath(room));
      }
    }
    FirstRoomNone(rooms, id);
    return Rooms(rooms);
  }

  /** The first room the user is in is the one at `i` when none before it matches. */
  lemma {:induction false} FirstRoomIs(rooms: seq<Room>, userId: string, i: nat)
    requires i < |rooms| && InRoom(rooms[i], userId)
    requires forall k :: 0 <= k < i ==> !InRoom(rooms[k], userId)
    ensures FirstRoom(rooms, userId) == Some(i)
  {
    if i > 0 {
      assert !InRoom(rooms[0], userId);
      FirstRoomIs(rooms[1..], userId, i - 1);
    }
  }

  /** With no room the user is in, nothing is found. */
  lemma {:induction false} FirstRoomNone(rooms: seq<Room>, userId: string)
    requires forall k :: 0 <= k < |rooms| ==> !InRoom(rooms[k], userId)
    ensures FirstRoom(rooms, userId) == None
  {
    if rooms != [] {
      assert !InRoom(rooms[0], userId);
      FirstRoomNone(rooms[1..], userId);
    }
  }
}

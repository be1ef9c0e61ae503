/**
 * The shapes of the playlist and room rows (src/lib/db/schema.ts) as the
 * stores and route handlers see them, and the object spread `{ ...row,
 * ...updates }` that merges a partial update into a row.
 */
module Schema {
  import opened Wrappers

  /** A Discord user as stored on a room: only the id is read by the model. */
  datatype UserData = UserData(id: string, username: string)

  /** A playlist row; `id` is optional on insert. */
  datatype Playlist = Playlist(
    id: Option<string>,
    userId: string,
    name: string,
    cover: Option<string>,
    songs: seq<string>,
    isPublic: bool)

  /** `Partial<InsertPlaylist>`: each field present or absent. */
  datatype PlaylistPatch = PlaylistPatch(
    id: Option<Option<string>>,
    userId: Option<string>,
    name: Option<string>,
    cover: Option<Option<string>>,
    songs: Option<seq<string>>,
    isPublic: Option<bool>)

  const NoPlaylistChange := PlaylistPatch(None, None, None, None, None, None)

  /** `{ ...p, ...updates }`: the fields present in `updates` win. */
  function MergePlaylist(p: Playlist, u: PlaylistPatch): Playlist {
    Playlist(
      u.id.GetOr(p.id), u.userId.GetOr(p.userId), u.name.GetOr(p.name),
      u.cover.GetOr(p.cover), u.songs.GetOr(p.songs), u.isPublic.GetOr(p.isPublic))
  }

  /** A field the update carries takes the update's value; any other field keeps the playlist's. */
  lemma MergePlaylistFields(p: Playlist, u: PlaylistPatch)
    ensures var r := MergePlaylist(p, u);
      && (u.name.Some? ==> r.name == u.name.value) && (u.name.None? ==> r.name == p.name)
      && (u.songs.Some? ==> r.songs == u.songs.value) && (u.songs.None? ==> r.songs == p.songs)
      && (u.cover.Some? ==> r.cover == u.cover.value) && (u.cover.None? ==> r.cover == p.cover)
      && (u.isPublic.Some? ==> r.isPublic == u.isPublic.value) && (u.isPublic.None? ==> r.isPublic == p.isPublic)
      && (u.id.None? ==> r.id == p.id) && (u.userId.None? ==> r.userId == p.userId)
  {
  }

  /** Merging the same update twice is merging it once; an empty update changes nothing. */
  lemma MergePlaylistIdempotent(p: Playlist, u: PlaylistPatch)
    ensures MergePlaylist(MergePlaylist(p, u), u) == MergePlaylist(p, u)
    ensures MergePlaylist(p, NoPlaylistChange) == p
  {
  }

  /** A room row; `members` and `queue` default to [] and `password` to "". */
  datatype Room = Room(
    id: string,
    name: string,
    password: string,
    hostUserId: string,
    host: UserData,
    members: seq<UserData>,
    queue: seq<string>,
    isPublic: bool)

  /** `Partial<SelectRoom>`. */
  datatype RoomPatch = RoomPatch(
    id: Option<string>,
    name: Option<string>,
    password: Option<string>,
    hostUserId: Option<string>,
    host: Option<UserData>,
    members: Option<seq<UserData>>,
    queue: Option<seq<string>>,
    isPublic: Option<bool>)

  const NoRoomChange := RoomPatch(None, None, None, None, None, None, None, None)

  /** `{ ...room, ...patch }`: the fields present in `patch` win. */
  function MergeRoom(room: Room, u: RoomPatch): Room {
    Room(
      u.id.GetOr(room.id), u.name.GetOr(room.name), u.password.GetOr(room.password),
      u.hostUserId.GetOr(room.hostUserId), u.host.GetOr(room.host), u.members.GetOr(room.members),
      u.queue.GetOr(room.queue), u.isPublic.GetOr(room.isPublic))
  }

  /** A field the patch carries takes the patch's value; any other field keeps the room's. */
  lemma MergeRoomFields(room: Room, u: RoomPatch)
    ensures var r := MergeRoom(room, u);
      && (u.name.Some? ==> r.name == u.name.value) && (u.name.None? ==> r.name == room.name)
      && (u.password.Some? ==> r.password == u.password.value) && (u.password.None? ==> r.password == room.password)
      && (u.members.Some? ==> r.members == u.members.value) && (u.members.None? ==> r.members == room.members)
      && (u.queue.Some? ==> r.queue == u.queue.value) && (u.queue.None? ==> r.queue == room.queue)
      && (u.hostUserId.None? ==> r.hostUserId == room.hostUserId) && (u.id.None? ==> r.id == room.id)
  {
  }

  /** Merging the same update twice is merging it once; an empty update changes nothing. */
  lemma MergeRoomIdempotent(room: Room, u: RoomPatch)
    ensures MergeRoom(MergeRoom(room, u), u) == MergeRoom(room, u)
    ensures MergeRoom(room, NoRoomChange) == room
  {
  }
}

/** The room the signed-in user is in (src/lib/stores/userRoom.ts). */
module UserRoom {
  import opened Wrappers
  import opened Schema

  class UserRoomStore {
    var room: Option<Room>

    constructor ()
      ensures room == None
    {
      room := None;
    }

    /** `set(room)`: replaces the stored room, or forgets it. */
    method Set(r: Option<Room>)
      modifies this
      ensures room == r
    {
      room := r;
    }

    /**
     * `update(patch)`: without a room nothing happens; otherwise the fields
     * the patch carries replace the room's and the others are kept.
     */
    method Update(patch: RoomPatch)
      modifies this
      ensures old(room).None? ==> room.None?
      ensures old(room).Some? ==> room == Some(MergeRoom(old(room).value, patch))
    {
      if room.None? {
        return;
      }
      room := Some(MergeRoom(room.value, patch));
    }

    /** `clear()`. */
    method Clear()
      modifies this
      ensures room.None?
    {
      room := None;
    }
  }
}

/** The room list logic of src/components/dashboard/Dashboard.jsx: the
    search filter and the two-step delete (pick a room, then confirm). */
module Dashboard {
  import opened Seqs
  import opened Text
  import opened Chat

  /** The lower-cased title or description includes the lower-cased query. */
  predicate RoomMatches(room: Room, query: string)
  {
    Contains(Lower(room.title), Lower(query)) || Contains(Lower(room.description), Lower(query))
  }

  function RoomMatcher(query: string): Room -> bool
  {
    (room: Room) => RoomMatches(room, query)
  }

  /** filteredChatrooms: exactly the matching rooms, in list order. */
  function FilteredChatrooms(rooms: seq<Room>, query: string): (r: seq<Room>)
    ensures forall room :: room in r ==> RoomMatches(room, query)
    ensures forall i :: 0 <= i < |rooms| && RoomMatches(rooms[i], query) ==> rooms[i] in r
    ensures forall room :: multiset(r)[room] == if RoomMatches(room, query) then multiset(rooms)[room] else 0
    ensures IsSubsequence(r, rooms)
  {
    Filter(rooms, RoomMatcher(query))
  }

  /** An empty search shows every room. */
  lemma EmptyQueryShowsAll(rooms: seq<Room>)
    ensures FilteredChatrooms(rooms, "") == rooms
  {
    forall i | 0 <= i < |rooms| ensures RoomMatches(rooms[i], "") {
      ContainsEmpty(Lower(rooms[i].title));
    }
  }

  class DashboardView {
    const store: ChatStore
    /** The room whose deletion awaits confirmation. */
    var deletingChatroom: Option<Room>

    constructor (store: ChatStore)
      ensures this.store == store && deletingChatroom == None
    {
      this.store := store;
      deletingChatroom := None;
    }

    /** handleDeleteChatroom: remember the room and ask for confirmation. */
    method HandleDeleteChatroom(room: Room)
      modifies this
      ensures deletingChatroom == Some(room)
    {
      deletingChatroom := Some(room);
    }

    /** confirmDelete: only with a room pending, delete that room by id, then
        forget it. */
    method ConfirmDelete()
      requires store.Valid()
      modifies this, store
      ensures store.Valid() && deletingChatroom == None
      ensures old(deletingChatroom).None? ==> unchanged(store)
      ensures old(deletingChatroom).Some? ==>
        var id := old(deletingChatroom).value.id;
        && store.chatrooms == Filter(old(store.chatrooms), OtherRoom(id))
        && store.messages == Filter(old(store.messages), OtherRoomMessage(id))
        && store.currentChatroom ==
             (if old(store.currentChatroom).Some? && old(store.currentChatroom).value.id == id then None
              else old(store.currentChatroom))
        && store.pending == old(store.pending) && store.page == old(store.page)
        && unchanged(store`isTyping, store`isLoading, store`hasMore)
    {
      if deletingChatroom.Some? {
        store.DeleteChatroom(deletingChatroom.value.id);
        deletingChatroom := None;
      }
    }
  }
}

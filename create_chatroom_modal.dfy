/** The creation form of src/components/dashboard/CreateChatroomModal.jsx:
    its schema, and the submit that hands valid data to addChatroom. */
module CreateChatroomModal {
  import opened Chat

  predicate TitleValid(title: string)
  {
    1 <= |title| <= 100
  }

  predicate DescriptionValid(description: string)
  {
    1 <= |description| <= 500
  }

  predicate RoomDataValid(data: RoomData)
  {
    TitleValid(data.title) && DescriptionValid(data.description)
  }

  /** createChatroomSchema: the messages of every failing check, title first. */
  function RoomDataIssues(data: RoomData): (issues: seq<string>)
    ensures issues == [] <==> RoomDataValid(data)
  {
    (if |data.title| < 1 then ["Title is required"] else []) +
    (if |data.title| > 100 then ["Title must be at most 100 characters"] else []) +
    (if |data.description| < 1 then ["Description is required"] else []) +
    (if |data.description| > 500 then ["Description must be at most 500 characters"] else [])
  }

  /** Submit: the schema runs first; only valid data reaches addChatroom, and
      it reaches it unchanged. */
  method Submit(store: ChatStore, data: RoomData, now: nat) returns (created: bool)
    requires store.Valid()
    modifies store
    ensures store.Valid()
    ensures created <==> RoomDataIssues(data) == []
    ensures created ==> store.chatrooms == [NewRoom(data, now)] + old(store.chatrooms)
    ensures created ==> store.chatrooms[0].title == data.title && store.chatrooms[0].description == data.description
    ensures created ==> unchanged(store`messages, store`currentChatroom, store`isTyping, store`isLoading)
    ensures created ==> unchanged(store`page, store`hasMore, store`pending)
    ensures !created ==> unchanged(store)
  {
    if RoomDataIssues(data) != [] {
      return false;
    }
    store.AddChatroom(data, now);
    created := true;
  }
}

/** The conversation store of src/stores/chatStore.js: rooms, the materialized
    message list of the open room, the typing and loading flags and the
    pagination cursor, mutated in place by the store's actions.

    The two `setTimeout` callbacks of `addMessage` and the one of
    `loadMoreMessages` are kept as values in `pending`, the callbacks handed to
    the event loop and not yet run; `BeginTyping`, `DeliverReply` and
    `CompleteLoad` run one of them, in whatever order the event loop picks.
    Every reading of `Date.now()` is the parameter `now` of the step that reads
    it, and the opener that `Math.random()` selects is the parameter `choice`. */
module Chat {
  import opened Seqs
  import opened Text

  datatype Sender = User | Ai

  /** The message `type` field, `'text' | 'image'`. */
  datatype Kind = TextKind | ImageKind

  datatype Message = Message(
    id: string,
    chatroomId: string,
    content: string,
    kind: Kind,
    sender: Sender,
    timestamp: int,
    imageUrl: Option<string>)

  /** What a caller hands to `addMessage`; the store adds `id` and `timestamp`.
      An empty `chatroomId` is the falsy case the store tests for. */
  datatype MessageData = MessageData(
    chatroomId: string,
    content: string,
    kind: Kind,
    sender: Sender,
    imageUrl: Option<string>)

  /** What the creation form hands to `addChatroom`. */
  datatype RoomData = RoomData(title: string, description: string)

  datatype Room = Room(
    id: string,
    title: string,
    description: string,
    createdAt: int,
    lastMessage: Option<string>,
    lastMessageAt: Option<int>,
    messageCount: nat)

  /** A callback registered with `setTimeout`, with the values it captured. */
  datatype Timer =
    | TypingTimer(trigger: MessageData)           // the 500 ms timer of addMessage
    | ReplyTimer(trigger: MessageData)            // the 1000-3000 ms timer nested in it
    | LoadTimer(chatroomId: string, page: nat)    // the 500 ms timer of loadMoreMessages

  const MessagesPerPage: nat := 20
  /** `hasMore` becomes `page < LastPage` after a load of page `page`. */
  const LastPage: nat := 5
  const MinuteMs: int := 60000
  const PreviewLength: nat := 50
  const Ellipsis: string := "..."

  // ---------------------------------------------------------------------------
  // Simulated reply (generateAIResponse)

  const Openers: seq<string> := [
    "That's an interesting question! Let me think about that...",
    "I understand what you're asking. Here's my perspective:",
    "Great point! I'd like to share some thoughts on that:",
    "I appreciate you bringing this up. Here's what I think:",
    "That's a thoughtful question. Let me provide some insights:",
    "I see what you mean. Here's how I'd approach that:",
    "Excellent question! I'd be happy to help with that:",
    "That's a fascinating topic. Here are my thoughts:"
  ]

  const ReplyBody: string :=
    "This is a simulated AI response to demonstrate the chat functionality. " +
    "In a real implementation, this would be connected to an actual AI service like Gemini."

  /** The reply text for the opener `Math.random()` picked; the user's message
      does not influence it. */
  function AIResponse(choice: nat): (r: string)
    requires choice < |Openers|
    ensures |r| > PreviewLength
    ensures IsPrefix(Openers[choice] + " ", r)
    ensures |ReplyBody| <= |r| && r[|r| - |ReplyBody|..] == ReplyBody
  {
    Openers[choice] + " " + ReplyBody
  }

  // ---------------------------------------------------------------------------
  // Synthesized history (generateDummyMessages)

  function DummyId(chatroomId: string, k: nat): string
  {
    "msg-" + chatroomId + "-" + NatToDecimal(k)
  }

  const UserSampleText: string := ": This is a sample user message to demonstrate the chat history."
  const AiSampleText: string := ": This is a sample AI response to demonstrate the conversation flow."

  function DummyContent(k: nat): string
  {
    if k % 2 == 0 then
      "User message " + NatToDecimal(k + 1) + UserSampleText
    else
      "AI response " + NatToDecimal(k + 1) + AiSampleText
  }

  /** The `k`-th message of the synthesized history, as the loop body builds it. */
  function DummyMessage(chatroomId: string, k: nat, now: int): Message
  {
    Message(DummyId(chatroomId, k), chatroomId, DummyContent(k), TextKind,
            if k % 2 == 0 then User else Ai, now - k * MinuteMs, None)
  }

  /** History index of position `j` of page `page` once the page is reversed. */
  function PageIndex(page: nat, j: nat): nat
    requires j < MessagesPerPage
  {
    page * MessagesPerPage + (MessagesPerPage - 1 - j)
  }

  /** Page `page` of the history in display order: oldest first. */
  function DummyPage(chatroomId: string, page: nat, now: int): seq<Message>
  {
    seq(MessagesPerPage, j requires 0 <= j < MessagesPerPage => DummyMessage(chatroomId, PageIndex(page, j), now))
  }

  /** `Array.prototype.reverse`: reverses `a` in place. */
  method ReverseInPlace<T>(a: array<T>)
    modifies a
    ensures forall k :: 0 <= k < a.Length ==> a[k] == old(a[a.Length - 1 - k])
  {
    var n := a.Length;
    var lo := 0;
    while lo < n / 2
      invariant 0 <= lo <= n / 2
      invariant forall k :: 0 <= k < lo ==> a[k] == old(a[n - 1 - k])
      invariant forall k :: n - lo <= k < n ==> a[k] == old(a[n - 1 - k])
      invariant forall k :: lo <= k < n - lo ==> a[k] == old(a[k])
    {
      a[lo], a[n - 1 - lo] := a[n - 1 - lo], a[lo];
      lo := lo + 1;
    }
  }

  /** generateDummyMessages: push the page's messages newest first into an
      array, then reverse the array in place. */
  method GenerateDummyMessages(chatroomId: string, page: nat, now: int) returns (messages: seq<Message>)
    ensures messages == DummyPage(chatroomId, page, now)
  {
    var a := new Message[MessagesPerPage];
    var startIndex := page * MessagesPerPage;
    for i := 0 to MessagesPerPage
      invariant forall k :: 0 <= k < i ==> a[k] == DummyMessage(chatroomId, startIndex + k, now)
    {
      a[i] := DummyMessage(chatroomId, startIndex + i, now);
    }
    // the messages in the order the loop pushed them: newest first
    ghost var pushed := a[..];
    ReverseInPlace(a);
    messages := a[..];
    ReversedPushOrderIsPage(chatroomId, page, now, pushed, messages);
  }

  /** Reversing the push order of page `page` gives the page in display order. */
  lemma ReversedPushOrderIsPage(chatroomId: string, page: nat, now: int, pushed: seq<Message>, reversed: seq<Message>)
    requires |pushed| == |reversed| == MessagesPerPage
    requires forall k :: 0 <= k < MessagesPerPage ==> pushed[k] == DummyMessage(chatroomId, page * MessagesPerPage + k, now)
    requires forall k :: 0 <= k < MessagesPerPage ==> reversed[k] == pushed[MessagesPerPage - 1 - k]
    ensures reversed == DummyPage(chatroomId, page, now)
  {
    forall j | 0 <= j < MessagesPerPage
      ensures reversed[j] == DummyPage(chatroomId, page, now)[j]
    {
      assert PageIndex(page, j) == page * MessagesPerPage + (MessagesPerPage - 1 - j);
    }
  }

  /** Every page has 20 messages of the requested room, of kind text, whose
      sender alternates with the parity of the history index. */
  lemma DummyPageShape(chatroomId: string, page: nat, now: int)
    ensures |DummyPage(chatroomId, page, now)| == MessagesPerPage
    ensures forall j :: 0 <= j < MessagesPerPage ==>
      var m := DummyPage(chatroomId, page, now)[j];
      && m.chatroomId == chatroomId
      && m.kind == TextKind
      && m.imageUrl == None
      && m.id == DummyId(chatroomId, PageIndex(page, j))
      && (m.sender == User <==> PageIndex(page, j) % 2 == 0)
  {
  }

  /** The ids of page `page` are `msg-<room>-<k>` for exactly the history
      indices k in [20 * page, 20 * page + 20). */
  lemma DummyPageIds(chatroomId: string, page: nat, now: int)
    ensures (set m | m in DummyPage(chatroomId, page, now) :: m.id)
         == (set k: nat | page * MessagesPerPage <= k < (page + 1) * MessagesPerPage :: DummyId(chatroomId, k))
  {
    var p := DummyPage(chatroomId, page, now);
    var lhs := set m | m in p :: m.id;
    var rhs := set k: nat | page * MessagesPerPage <= k < (page + 1) * MessagesPerPage :: DummyId(chatroomId, k);
    forall id | id in lhs ensures id in rhs {
      var m :| m in p && m.id == id;
      var j :| 0 <= j < |p| && p[j] == m;
      assert id == DummyId(chatroomId, PageIndex(page, j));
    }
    forall id | id in rhs ensures id in lhs {
      var k: nat :| page * MessagesPerPage <= k < (page + 1) * MessagesPerPage && id == DummyId(chatroomId, k);
      var j := MessagesPerPage - 1 - (k - page * MessagesPerPage);
      assert PageIndex(page, j) == k;
      assert p[j] in p;
    }
  }

  /** Distinct history indices give distinct ids. */
  lemma DummyIdInjective(chatroomId: string, k: nat, k': nat)
    ensures DummyId(chatroomId, k) == DummyId(chatroomId, k') ==> k == k'
  {
    var pre := "msg-" + chatroomId + "-";
    if DummyId(chatroomId, k) == DummyId(chatroomId, k') {
      assert NatToDecimal(k) == DummyId(chatroomId, k)[|pre|..];
      assert NatToDecimal(k') == DummyId(chatroomId, k')[|pre|..];
      NatToDecimalInjective(k, k');
    }
  }

  /** No two messages of a page share an id. */
  lemma DummyPageIdsDistinct(chatroomId: string, page: nat, now: int)
    ensures forall i, j :: 0 <= i < j < MessagesPerPage ==>
      DummyPage(chatroomId, page, now)[i].id != DummyPage(chatroomId, page, now)[j].id
  {
    forall i, j | 0 <= i < j < MessagesPerPage
      ensures DummyPage(chatroomId, page, now)[i].id != DummyPage(chatroomId, page, now)[j].id
    {
      DummyIdInjective(chatroomId, PageIndex(page, i), PageIndex(page, j));
    }
  }

  predicate StrictlyAscending(ms: seq<Message>)
  {
    forall i, j :: 0 <= i < j < |ms| ==> ms[i].timestamp < ms[j].timestamp
  }

  /** Timestamps fall by a minute per history index and the page is reversed,
      so a page is in strictly ascending time order. */
  lemma DummyPageAscending(chatroomId: string, page: nat, now: int)
    ensures StrictlyAscending(DummyPage(chatroomId, page, now))
  {
  }

  /** Page `page + 1` generated at `later` and prepended to page `page`
      generated at `earlier` keeps the whole list in ascending time order exactly
      when less than a minute passed between the two generations. */
  lemma {:induction false} PagesAscendingIff(chatroomId: string, page: nat, earlier: int, later: int)
    ensures StrictlyAscending(DummyPage(chatroomId, page + 1, later) + DummyPage(chatroomId, page, earlier))
        <==> later - earlier < MinuteMs
  {
    var older := DummyPage(chatroomId, page + 1, later);
    var newer := DummyPage(chatroomId, page, earlier);
    var both := older + newer;
    DummyPageAscending(chatroomId, page + 1, later);
    DummyPageAscending(chatroomId, page, earlier);
    if later - earlier < MinuteMs {
      forall i, j | 0 <= i < j < |both| ensures both[i].timestamp < both[j].timestamp {
        if j >= MessagesPerPage && i < MessagesPerPage {
          assert both[i].timestamp <= older[MessagesPerPage - 1].timestamp;
          assert newer[0].timestamp <= both[j].timestamp;
        }
      }
    } else {
      assert both[MessagesPerPage - 1] == older[MessagesPerPage - 1];
      assert both[MessagesPerPage] == newer[0];
    }
  }

  // ---------------------------------------------------------------------------
  // Room summaries (addChatroom, updateChatroomLastMessage)

  /** The room `addChatroom` builds from the form data at time `now`. */
  function NewRoom(data: RoomData, now: nat): Room
  {
    Room(NatToDecimal(now), data.title, data.description, now, None, None, 0)
  }

  /** The `lastMessage` preview: messages over 50 characters are cut to their
      first 50 and followed by "...". */
  function Preview(message: string): (r: string)
    ensures |r| <= PreviewLength + |Ellipsis|
    ensures |message| <= PreviewLength ==> r == message
    ensures |message| > PreviewLength ==>
      |r| == PreviewLength + |Ellipsis| && IsPrefix(message[..PreviewLength], r) && r[PreviewLength..] == Ellipsis
  {
    if |message| > PreviewLength then message[..PreviewLength] + Ellipsis else message
  }

  /** A room's summary after one more message `message` at time `now`. */
  function Touch(room: Room, message: string, now: int): Room
  {
    room.(lastMessage := Some(Preview(message)), lastMessageAt := Some(now), messageCount := room.messageCount + 1)
  }

  /** The `map` of updateChatroomLastMessage: the rooms with id `chatroomId`
      get the new summary and one more message; every other room, and the order
      and length of the list, stay as they were. */
  function UpdateRooms(rooms: seq<Room>, chatroomId: string, message: string, now: int): (r: seq<Room>)
    ensures |r| == |rooms|
    ensures forall i :: 0 <= i < |rooms| && rooms[i].id != chatroomId ==> r[i] == rooms[i]
    ensures forall i :: 0 <= i < |rooms| && rooms[i].id == chatroomId ==>
      && r[i].messageCount == rooms[i].messageCount + 1
      && r[i].lastMessage == Some(Preview(message))
      && r[i].lastMessageAt == Some(now)
      && r[i].(lastMessage := rooms[i].lastMessage, lastMessageAt := rooms[i].lastMessageAt,
               messageCount := rooms[i].messageCount) == rooms[i]
  {
    seq(|rooms|, i requires 0 <= i < |rooms| =>
      if rooms[i].id == chatroomId then Touch(rooms[i], message, now) else rooms[i])
  }

  /** Every preview the store keeps is at most 53 characters long. */
  ghost predicate PreviewsBounded(rooms: seq<Room>)
  {
    forall i :: 0 <= i < |rooms| && rooms[i].lastMessage.Some? ==>
      |rooms[i].lastMessage.value| <= PreviewLength + |Ellipsis|
  }

  lemma UpdateRoomsKeepsPreviewsBounded(rooms: seq<Room>, chatroomId: string, message: string, now: int)
    requires PreviewsBounded(rooms)
    ensures PreviewsBounded(UpdateRooms(rooms, chatroomId, message, now))
  {
  }

  /** The simulated reply is always longer than the preview, so the room ends
      up showing its first 50 characters and "...". */
  lemma ReplyPreviewIsTruncated(choice: nat)
    requires choice < |Openers|
    ensures Preview(AIResponse(choice)) == AIResponse(choice)[..PreviewLength] + Ellipsis
  {
  }

  /** The filter predicates of deleteChatroom. */
  function OtherRoom(id: string): Room -> bool
  {
    (room: Room) => room.id != id
  }

  function OtherRoomMessage(id: string): Message -> bool
  {
    (msg: Message) => msg.chatroomId != id
  }

  /** The message addMessage stores for `data` at time `now`. */
  function NewMessage(data: MessageData, now: nat): Message
  {
    Message(NatToDecimal(now), data.chatroomId, data.content, data.kind, data.sender, now, data.imageUrl)
  }

  /** The reply the second timer of addMessage appends, at time `now`. */
  function ReplyMessage(trigger: MessageData, choice: nat, now: nat): Message
    requires choice < |Openers|
  {
    Message(NatToDecimal(now + 1), trigger.chatroomId, AIResponse(choice), TextKind, Ai, now, None)
  }

  /** `s` without its element at `i`. */
  function RemoveAt<T>(s: seq<T>, i: nat): (r: seq<T>)
    requires i < |s|
    ensures |r| == |s| - 1
    ensures forall k :: 0 <= k < i ==> r[k] == s[k]
    ensures forall k :: i <= k < |r| ==> r[k] == s[k + 1]
  {
    s[..i] + s[i + 1..]
  }

  // ---------------------------------------------------------------------------
  // The store

  class ChatStore {
    var chatrooms: seq<Room>
    var messages: seq<Message>
    var currentChatroom: Option<Room>
    var isTyping: bool
    var isLoading: bool
    var page: nat
    var hasMore: bool
    /** Callbacks registered with `setTimeout` that have not run yet. */
    var pending: seq<Timer>

    /** Previews stay short, and `hasMore` is only ever cleared by a load of
        page 5 or later, which leaves the cursor past page 5. */
    ghost predicate Valid()
      reads this
    {
      PreviewsBounded(chatrooms) && (!hasMore ==> page > LastPage)
    }

    constructor ()
      ensures Valid()
      ensures chatrooms == [] && messages == [] && currentChatroom == None
      ensures !isTyping && !isLoading && page == 0 && hasMore && pending == []
    {
      chatrooms := [];
      messages := [];
      currentChatroom := None;
      isTyping := false;
      isLoading := false;
      page := 0;
      hasMore := true;
      pending := [];
    }

    /** addChatroom: the new room goes in front of the existing ones. */
    method AddChatroom(data: RoomData, now: nat)
      requires Valid()
      modifies this
      ensures Valid()
      ensures chatrooms == [NewRoom(data, now)] + old(chatrooms)
      ensures chatrooms[0].messageCount == 0 && chatrooms[1..] == old(chatrooms)
      ensures unchanged(this`messages, this`currentChatroom, this`isTyping, this`isLoading)
      ensures unchanged(this`page, this`hasMore, this`pending)
    {
      chatrooms := [NewRoom(data, now)] + chatrooms;
    }

    /** deleteChatroom: drops the room, its loaded messages and, when it is
        the open room, the open-room pointer. */
    method DeleteChatroom(id: string)
      requires Valid()
      modifies this
      ensures Valid()
      ensures chatrooms == Filter(old(chatrooms), OtherRoom(id))
      ensures forall r :: r in chatrooms <==> r in old(chatrooms) && r.id != id
      ensures messages == Filter(old(messages), OtherRoomMessage(id))
      ensures forall m :: m in messages <==> m in old(messages) && m.chatroomId != id
      ensures currentChatroom ==
        if old(currentChatroom).Some? && old(currentChatroom).value.id == id then None else old(currentChatroom)
      ensures unchanged(this`isTyping, this`isLoading, this`page, this`hasMore, this`pending)
    {
      var rooms := Filter(chatrooms, OtherRoom(id));
      assert forall i :: 0 <= i < |rooms| ==> rooms[i] in chatrooms;
      chatrooms := rooms;
      currentChatroom := if currentChatroom.Some? && currentChatroom.value.id == id then None else currentChatroom;
      messages := Filter(messages, OtherRoomMessage(id));
    }

    /** setCurrentChatroom: resets the cursor and, for a room, loads page 0. */
    method SetCurrentChatroom(chatroom: Option<Room>, now: int)
      requires Valid()
      modifies this
      ensures Valid()
      ensures currentChatroom == chatroom && hasMore
      ensures chatroom.None? ==> messages == [] && page == 0
      ensures chatroom.Some? ==> messages == DummyPage(chatroom.value.id, 0, now) && page == 1
      ensures unchanged(this`chatrooms, this`isTyping, this`isLoading, this`pending)
    {
      currentChatroom, messages, page, hasMore := chatroom, [], 0, true;
      if chatroom.Some? {
        var initialMessages := GenerateDummyMessages(chatroom.value.id, 0, now);
        messages, page := initialMessages, 1;
      }
    }

    /** updateChatroomLastMessage. */
    method UpdateChatroomLastMessage(chatroomId: string, message: string, now: int)
      requires Valid()
      modifies this
      ensures Valid()
      ensures chatrooms == UpdateRooms(old(chatrooms), chatroomId, message, now)
      ensures unchanged(this`messages, this`currentChatroom, this`isTyping, this`isLoading)
      ensures unchanged(this`page, this`hasMore, this`pending)
    {
      UpdateRoomsKeepsPreviewsBounded(chatrooms, chatroomId, message, now);
      chatrooms := UpdateRooms(chatrooms, chatroomId, message, now);
    }

    /** addMessage: appends the message, updates its room's summary when it
        names one, and for a user message starts the reply timers. Neither the
        room's existence nor the open room is checked. */
    method AddMessage(data: MessageData, now: nat)
      requires Valid()
      modifies this
      ensures Valid()
      ensures messages == old(messages) + [NewMessage(data, now)]
      ensures chatrooms ==
        if data.chatroomId != "" then UpdateRooms(old(chatrooms), data.chatroomId, data.content, now)
        else old(chatrooms)
      ensures pending == if data.sender == User then old(pending) + [TypingTimer(data)] else old(pending)
      ensures unchanged(this`currentChatroom, this`isTyping, this`isLoading, this`page, this`hasMore)
    {
      messages := messages + [NewMessage(data, now)];
      if data.chatroomId != "" {
        UpdateChatroomLastMessage(data.chatroomId, data.content, now);
      }
      if data.sender == User {
        pending := pending + [TypingTimer(data)];
      }
    }

    /** The first timer of addMessage fires: the typing flag goes up and the
        reply timer is registered. */
    method BeginTyping(i: nat)
      requires Valid()
      requires i < |pending| && pending[i].TypingTimer?
      modifies this
      ensures Valid()
      ensures isTyping
      ensures pending == RemoveAt(old(pending), i) + [ReplyTimer(old(pending)[i].trigger)]
      ensures unchanged(this`chatrooms, this`messages, this`currentChatroom, this`isLoading)
      ensures unchanged(this`page, this`hasMore)
    {
      var trigger := pending[i].trigger;
      isTyping := true;
      pending := RemoveAt(pending, i) + [ReplyTimer(trigger)];
    }

    /** The reply timer fires: the reply is appended (whether or not its room
        still exists or is open), the typing flag drops, and the room summary is
        updated once more. */
    method DeliverReply(i: nat, choice: nat, now: nat)
      requires Valid()
      requires i < |pending| && pending[i].ReplyTimer?
      requires choice < |Openers|
      modifies this
      ensures Valid()
      ensures messages == old(messages) + [ReplyMessage(old(pending)[i].trigger, choice, now)]
      ensures messages[|messages| - 1].sender == Ai && |messages[|messages| - 1].content| > 0
      ensures !isTyping
      ensures chatrooms == UpdateRooms(old(chatrooms), old(pending)[i].trigger.chatroomId, AIResponse(choice), now)
      ensures pending == RemoveAt(old(pending), i)
      ensures unchanged(this`currentChatroom, this`isLoading, this`page, this`hasMore)
    {
      var trigger := pending[i].trigger;
      var reply := ReplyMessage(trigger, choice, now);
      messages, isTyping := messages + [reply], false;
      pending := RemoveAt(pending, i);
      UpdateChatroomLastMessage(trigger.chatroomId, reply.content, now);
    }

    /** setMessages. */
    method SetMessages(ms: seq<Message>)
      requires Valid()
      modifies this
      ensures Valid()
      ensures messages == ms
      ensures unchanged(this`chatrooms, this`currentChatroom, this`isTyping, this`isLoading)
      ensures unchanged(this`page, this`hasMore, this`pending)
    {
      messages := ms;
    }

    /** setTyping. */
    method SetTyping(b: bool)
      requires Valid()
      modifies this
      ensures Valid()
      ensures isTyping == b
      ensures unchanged(this`chatrooms, this`messages, this`currentChatroom, this`isLoading)
      ensures unchanged(this`page, this`hasMore, this`pending)
    {
      isTyping := b;
    }

    /** setLoading. */
    method SetLoading(b: bool)
      requires Valid()
      modifies this
      ensures Valid()
      ensures isLoading == b
      ensures unchanged(this`chatrooms, this`messages, this`currentChatroom, this`isTyping)
      ensures unchanged(this`page, this`hasMore, this`pending)
    {
      isLoading := b;
    }

    /** loadMoreMessages: unless the history is exhausted, raise the loading
        flag and register the load timer with the current page. A load already
        in flight does not stop another one. */
    method LoadMoreMessages(chatroomId: string)
      requires Valid()
      modifies this
      ensures Valid()
      ensures !old(hasMore) ==> isLoading == old(isLoading) && pending == old(pending)
      ensures old(hasMore) ==> isLoading && pending == old(pending) + [LoadTimer(chatroomId, old(page))]
      ensures unchanged(this`chatrooms, this`messages, this`currentChatroom, this`isTyping)
      ensures unchanged(this`page, this`hasMore)
    {
      if !hasMore {
        return;
      }
      isLoading := true;
      pending := pending + [LoadTimer(chatroomId, page)];
    }

    /** The load timer fires: the captured page is put in front of whatever is
        loaded now, and the cursor moves past the captured page. */
    method CompleteLoad(i: nat, now: int)
      requires Valid()
      requires i < |pending| && pending[i].LoadTimer?
      modifies this
      ensures Valid()
      ensures messages == DummyPage(old(pending)[i].chatroomId, old(pending)[i].page, now) + old(messages)
      ensures page == old(pending)[i].page + 1
      ensures hasMore == (old(pending)[i].page < LastPage)
      ensures !isLoading
      ensures pending == RemoveAt(old(pending), i)
      ensures unchanged(this`chatrooms, this`currentChatroom, this`isTyping)
    {
      var t := pending[i];
      var newMessages := GenerateDummyMessages(t.chatroomId, t.page, now);
      messages, page, hasMore, isLoading := newMessages + messages, t.page + 1, t.page < LastPage, false;
      pending := RemoveAt(pending, i);
    }
  }

  // ---------------------------------------------------------------------------
  // Clients

  /** The scroll-to-top handler of the conversation view requests one page at
      a time, only while `hasMore` and not while a load is in flight. Starting
      right after a room was opened, with no load in flight, it completes
      exactly five loads, adds 100 messages, and leaves the history
      exhausted, so the handler stops requesting. */
  method LoadWholeHistory(store: ChatStore, chatroomId: string, now: int) returns (loads: nat)
    requires store.Valid() && store.page == 1 && store.hasMore && !store.isLoading
    requires forall t :: t in store.pending ==> !t.LoadTimer?
    modifies store
    ensures store.Valid()
    ensures loads == LastPage && !store.hasMore && !store.isLoading && store.page == LastPage + 1
    ensures |store.messages| == |old(store.messages)| + LastPage * MessagesPerPage
    ensures store.pending == old(store.pending)
  {
    loads := 0;
    while store.hasMore && !store.isLoading
      invariant store.Valid() && !store.isLoading
      invariant store.hasMore ==> store.page == loads + 1 && loads < LastPage
      invariant !store.hasMore ==> loads == LastPage && store.page == LastPage + 1
      invariant |store.messages| == |old(store.messages)| + loads * MessagesPerPage
      invariant store.pending == old(store.pending)
      decreases LastPage - loads
    {
      store.LoadMoreMessages(chatroomId);
      store.CompleteLoad(|store.pending| - 1, now);
      loads := loads + 1;
    }
  }

  /** Create a room, open it, send "Hi" and let both timers run: the room has
      counted two messages, shows the truncated reply, the last loaded message
      is the reply and the typing flag is down again. */
  method ReplyScenario(choice: nat, t0: nat, t1: nat, t2: nat, t3: nat)
    returns (room: Room, last: Message, typing: bool, timersLeft: nat)
    requires choice < |Openers|
    ensures room.title == "Test" && room.description == "D"
    ensures room.messageCount == 2
    ensures room.lastMessage == Some(AIResponse(choice)[..PreviewLength] + Ellipsis)
    ensures last.sender == Ai && last.content == AIResponse(choice) && last.chatroomId == room.id
    ensures !typing && timersLeft == 0
  {
    var store := new ChatStore();
    store.AddChatroom(RoomData("Test", "D"), t0);
    var id := store.chatrooms[0].id;
    store.SetCurrentChatroom(Some(store.chatrooms[0]), t1);
    store.AddMessage(MessageData(id, "Hi", TextKind, User, None), t2);
    store.BeginTyping(0);
    store.DeliverReply(0, choice, t3);
    ReplyPreviewIsTruncated(choice);
    room, last, typing, timersLeft :=
      store.chatrooms[0], store.messages[|store.messages| - 1], store.isTyping, |store.pending|;
  }

  /** Two scroll requests before the first load completes both capture page
      1: the page is prepended twice and the cursor still ends at page 2. */
  method DuplicateLoadScenario(t0: nat, t1: int, t2: int, t3: int)
    returns (chatroomId: string, loaded: seq<Message>, page: nat, hasMore: bool)
    ensures |loaded| == 3 * MessagesPerPage
    ensures loaded[..MessagesPerPage] == DummyPage(chatroomId, 1, t3)
    ensures loaded[MessagesPerPage..2 * MessagesPerPage] == DummyPage(chatroomId, 1, t2)
    ensures loaded[2 * MessagesPerPage..] == DummyPage(chatroomId, 0, t1)
    ensures page == 2 && hasMore
  {
    var store := new ChatStore();
    store.AddChatroom(RoomData("Test", "D"), t0);
    chatroomId := store.chatrooms[0].id;
    store.SetCurrentChatroom(Some(store.chatrooms[0]), t1);
    store.LoadMoreMessages(chatroomId);
    store.LoadMoreMessages(chatroomId);
    store.CompleteLoad(0, t2);
    store.CompleteLoad(0, t3);
    loaded, page, hasMore := store.messages, store.page, store.hasMore;
  }

  /** A room deleted while its reply is pending: the reply is still appended
      to the message list, under the id of a room that no longer exists. */
  method OrphanReplyScenario(choice: nat, t0: nat, t1: nat, t2: nat)
    returns (chatroomId: string, rooms: seq<Room>, loaded: seq<Message>)
    requires choice < |Openers|
    ensures rooms == []
    ensures |loaded| == 1 && loaded[0].chatroomId == chatroomId && loaded[0].sender == Ai
    ensures loaded[0].content == AIResponse(choice)
  {
    var store := new ChatStore();
    store.AddChatroom(RoomData("Test", "D"), t0);
    chatroomId := store.chatrooms[0].id;
    store.AddMessage(MessageData(chatroomId, "Hi", TextKind, User, None), t1);
    store.DeleteChatroom(chatroomId);
    store.BeginTyping(0);
    store.DeliverReply(0, choice, t2);
    rooms, loaded := store.chatrooms, store.messages;
  }

  /** loadMoreMessages does not remember the room it was asked for beyond
      the page it captured: a load requested in one room that completes after
      another room was opened puts the first room's page in front of the
      second room's messages and moves the second room's cursor. */
  method RoomSwitchLoadScenario(t0: nat, t1: nat, t2: int, t3: int, t4: int)
    returns (first: string, second: string, loaded: seq<Message>, page: nat, open: Option<Room>)
    ensures loaded == DummyPage(first, 1, t4) + DummyPage(second, 0, t3)
    ensures open.Some? && open.value.id == second
    ensures page == 2
  {
    var store := new ChatStore();
    store.AddChatroom(RoomData("A", "D"), t0);
    first := store.chatrooms[0].id;
    store.SetCurrentChatroom(Some(store.chatrooms[0]), t2);
    store.LoadMoreMessages(first);
    store.AddChatroom(RoomData("B", "D"), t1);
    second := store.chatrooms[0].id;
    store.SetCurrentChatroom(Some(store.chatrooms[0]), t3);
    store.CompleteLoad(0, t4);
    loaded, page, open := store.messages, store.page, store.currentChatroom;
  }
}

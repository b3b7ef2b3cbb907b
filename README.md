# Chat client conversation state, in Dafny

This project models the core of a browser chat client with a simulated AI
responder. The main part is the conversation store. It holds:

- the list of chat rooms, newest first, each with a summary (last-message
  preview, last-message time, message count);
- the loaded messages of the open room;
- the open-room pointer;
- the typing and loading flags;
- the pagination cursor (`page`, `hasMore`).

Its actions create and delete rooms, open a room (which loads history page 0),
append messages, and load older history pages. Each user message schedules a
two-step simulated reply: first the typing flag goes up, then the reply is
appended. Around the store the project models:

- the room search and the confirmed delete of the dashboard;
- the room-creation form schema;
- the phone/OTP sign-in form with its session store;
- the country list derived from the fetched countries;
- the country selector's search, dial code and default pick.

Modules follow the source files:

| module | file | form |
|---|---|---|
| `Chat` | chat_store.dfy | class `ChatStore` with `seq` fields; the pure helpers as functions; `GenerateDummyMessages` as a loop over an array, reversed in place |
| `Auth` | auth_store.dfy | class `AuthStore` |
| `Api` | api.dfy | functions (filter, insertion sort, OTP predicates) |
| `CountrySelector` | country_selector.dfy | functions |
| `AuthForm` | auth_form.dfy | schema functions and class `AuthFormView` for the two submit handlers |
| `Dashboard` | dashboard.dfy | search function and class `DashboardView` for the delete confirmation |
| `CreateChatroomModal` | create_chatroom_modal.dfy | schema function and the submit method |
| `Seqs`, `Text` | seqs.dfy, text.dfy | `filter`, `find`, subsequence, ASCII `toLowerCase`, `includes`, `/^\d+$/`, decimal rendering |

Timers and time are modelled as follows:

- **Timers.** `setTimeout` callbacks become values in the store field
  `pending`. The steps `BeginTyping`, `DeliverReply` and `CompleteLoad` each
  run one pending callback. They may run in any order, as the event loop may
  fire them.
- **Clock.** Every `Date.now()` / `new Date()` reading is a `now` parameter of
  the step that reads it. Ids are `String(now)`, and the reply id is
  `String(now + 1)`. Nothing assumes ids are unique.
- **Random opener.** The reply opener that `Math.random()` selects is a
  parameter `choice < 8`.
- **Sort order.** `localeCompare` is an abstract total relation `leq` on names.

The model follows the code as written, including these behaviours:

- The reply is appended even when its room was deleted in the meantime
  (`Chat.OrphanReplyScenario`).
- `isTyping` is a plain boolean that the first reply to arrive clears. It is
  not a reference count.
- `loadMoreMessages` has no in-flight guard. Two requests before completion
  load the same page twice (`Chat.DuplicateLoadScenario`). The conversation
  view's scroll handler requests only while `hasMore` holds and no load is in
  flight; `Chat.LoadWholeHistory` models that handler from a freshly opened
  room with no load in flight.
- `loadMoreMessages` does not tie a load to the open room. Opening another
  room clears neither `isLoading` nor a pending load. When that load
  completes it puts the first room's page in front of the second room's
  messages and moves the second room's cursor (`Chat.RoomSwitchLoadScenario`).
- `addMessage` checks neither that a room is open nor that the message belongs
  to the open room.
- Synthesized history is not dated "older than the oldest loaded message".
  Each page is dated back from the clock at the moment it is generated.
  `Chat.PagesAscendingIff` proves that a newly loaded page and the page loaded
  before it stay in ascending time order exactly when less than 60000 ms
  passed between the two generations.

## Model

| member | source | states |
|---|---|---|
| `Seqs.Filter` | src/stores/chatStore.js:78-80 | the result holds exactly the elements satisfying the predicate, each as often as in the input, as an order-preserving subsequence; when every element satisfies it the input comes back unchanged |
| `Seqs.FindIndex` | src/components/auth/CountrySelector.jsx:18 | `find`: the index of the first element satisfying the predicate, or none exactly when no element does |
| `Text.ContainsIffOccurs` | src/components/dashboard/Dashboard.jsx:27-28 | `includes` holds exactly when the substring occurs at some position |
| `Text.Lower` | src/components/dashboard/Dashboard.jsx:27-28 | `toLowerCase` keeps the length, maps each ASCII capital to its small letter and leaves every other character, so no capital remains |
| `Text.LowerIdempotent` | src/components/auth/CountrySelector.jsx:32 | lower-casing twice gives the same as lower-casing once |
| `Text.AllDigits` | src/utils/api.js:26 | the `/^\d+$/` test agrees with the left-to-right reading of the pattern: a digit, then the end or another run of digits |
| `Text.DigitRunIffAllDigits` | src/components/auth/AuthForm.jsx:14 | a string matches `\d+` exactly when it is non-empty and every character is a digit |
| `Text.DecimalLength` | src/stores/chatStore.js:66 | a number renders in at most k digits exactly when it is below 10^k |
| `Text.NatToDecimal` | src/stores/chatStore.js:66 | `Date.now().toString()` yields a non-empty string of digits, one digit long exactly for numbers below 10 |
| `Text.DecimalRoundTrip` | src/stores/chatStore.js:34 | reading a rendered number back gives the number |
| `Text.NatToDecimalInjective` | src/stores/chatStore.js:34 | distinct numbers render differently |
| `Chat.AIResponse` | src/stores/chatStore.js:4-21 | the reply starts with the chosen opener and a space, ends with the fixed body, and is longer than 50 characters (so never empty) |
| `Chat.ReverseInPlace` | src/stores/chatStore.js:49 | `reverse()` leaves at position k what was at position n-1-k |
| `Chat.GenerateDummyMessages` | src/stores/chatStore.js:24-50 | the push loop followed by the in-place reverse yields page `page` of the history in display order |
| `Chat.ReversedPushOrderIsPage` | src/stores/chatStore.js:29-49 | the push order (history indices start to start+19) reversed is the page with position j holding history index 20·page+19-j |
| `Chat.DummyPageShape` | src/stores/chatStore.js:29-47 | a page has 20 messages, all of the requested room, of type text, without image, id `msg-<room>-<k>`, and sender `user` exactly when k is even |
| `Chat.DummyPageIds` | src/stores/chatStore.js:27-34 | the ids of page p are exactly `msg-<room>-<k>` for k in [20p, 20p+20) |
| `Chat.DummyIdInjective` | src/stores/chatStore.js:34 | two history indices give the same id only if they are equal |
| `Chat.DummyPageIdsDistinct` | src/stores/chatStore.js:30-34 | no two messages of a page share an id |
| `Chat.DummyPageAscending` | src/stores/chatStore.js:45-49 | the timestamps of a page are strictly ascending |
| `Chat.PagesAscendingIff` | src/stores/chatStore.js:160-163 | page p+1 prepended to page p stays strictly ascending in time exactly when the later generation is under 60000 ms after the earlier one |
| `Chat.Preview` | src/stores/chatStore.js:177 | the preview is at most 53 characters; a message of at most 50 is kept as is; a longer one becomes its first 50 characters followed by "..." |
| `Chat.UpdateRooms` | src/stores/chatStore.js:171-184 | rooms with the given id get one more message, the preview of the message and the new time, and keep every other field; every other room, and the list's length and order, are unchanged |
| `Chat.UpdateRoomsKeepsPreviewsBounded` | src/stores/chatStore.js:177 | after a summary update every stored preview is still at most 53 characters |
| `Chat.ReplyPreviewIsTruncated` | src/stores/chatStore.js:134 | after a reply the room shows the reply's first 50 characters followed by "..." |
| `Chat.ChatStore.constructor` | src/stores/chatStore.js:55-61 | the initial state: no rooms, no messages, no open room, both flags down, page 0, more history available |
| `Chat.ChatStore.AddChatroom` | src/stores/chatStore.js:63-74 | the list grows by one; its head is the new room with count 0 and no preview, and its tail is the old list unchanged; nothing else changes |
| `Chat.ChatStore.DeleteChatroom` | src/stores/chatStore.js:76-82 | exactly the rooms with that id and the messages of that room are removed, the rest kept in order; the open room is cleared exactly when it had that id |
| `Chat.ChatStore.SetCurrentChatroom` | src/stores/chatStore.js:84-96 | `hasMore` is true; with no room, messages are empty and page is 0; with a room, messages are its page 0 and page is 1 |
| `Chat.ChatStore.UpdateChatroomLastMessage` | src/stores/chatStore.js:171-184 | the room list becomes `UpdateRooms` of the old one; nothing else changes |
| `Chat.ChatStore.AddMessage` | src/stores/chatStore.js:98-115 | exactly one message is appended at the tail after the unchanged old list; the summary is updated once when the message names a room; a user message registers the typing timer |
| `Chat.ChatStore.BeginTyping` | src/stores/chatStore.js:116-117 | the typing flag goes up and the fired timer is replaced by the reply timer for the same message |
| `Chat.ChatStore.DeliverReply` | src/stores/chatStore.js:119-135 | exactly one `ai` message with the non-empty reply is appended, the typing flag drops, and the room's summary is updated once more, with no check that the room exists |
| `Chat.ChatStore.SetMessages` | src/stores/chatStore.js:140-142 | only the message list changes |
| `Chat.ChatStore.SetTyping` | src/stores/chatStore.js:144-146 | only the typing flag changes |
| `Chat.ChatStore.SetLoading` | src/stores/chatStore.js:148-150 | only the loading flag changes |
| `Chat.ChatStore.LoadMoreMessages` | src/stores/chatStore.js:152-158 | a no-op when `hasMore` is false; otherwise the loading flag goes up and a load of the current page is registered, even with a load in flight |
| `Chat.ChatStore.CompleteLoad` | src/stores/chatStore.js:159-168 | the captured page is prepended before the existing messages; page becomes the captured page + 1; `hasMore` becomes captured page < 5; the loading flag drops |
| `Chat.LoadWholeHistory` | src/components/chat/ChatInterface.jsx:36-40 | the handler requests only while `hasMore` and not loading; from a freshly opened room with no load in flight it completes exactly 5 loads, adds 100 messages and ends with `hasMore` false and not loading, so it stops |
| `Chat.ReplyScenario` | src/stores/chatStore.js:98-138 | create a room, open it, send "Hi" and run both timers: the count is 2, the preview is the truncated reply, the last message is the `ai` reply of that room, and the typing flag is down with no timers left |
| `Chat.DuplicateLoadScenario` | src/stores/chatStore.js:152-169 | two load requests before completion prepend page 1 twice, and the cursor ends at page 2 |
| `Chat.RoomSwitchLoadScenario` | src/stores/chatStore.js:152-168 | a load requested in one room and completed after another room was opened prepends the first room's page to the second room's messages and sets the cursor to 2 |
| `Chat.OrphanReplyScenario` | src/stores/chatStore.js:119-134 | a room deleted before its reply fires: no room is left, yet the message list holds the `ai` reply under the deleted room's id |
| `Auth.AuthStore.constructor` | src/stores/authStore.js:7-8 | no session and the loading flag down |
| `Auth.AuthStore.Login` | src/stores/authStore.js:9-17 | the session becomes the user, authenticated, with the token; the loading flag is unchanged |
| `Auth.AuthStore.Logout` | src/stores/authStore.js:18-20 | the session becomes null; the loading flag is unchanged |
| `Auth.AuthStore.SetLoading` | src/stores/authStore.js:21-23 | only the loading flag changes |
| `Api.InsertByName` | src/utils/api.js:8 | inserting into a sorted list keeps it sorted by name and adds exactly that entry |
| `Api.SortByName` | src/utils/api.js:8 | the result is sorted by name under the comparator and is a permutation of the input |
| `Api.ListCountries` | src/utils/api.js:7-8 | the list holds exactly the entries with a non-empty dial-code root and at least one suffix, each as often as fetched, sorted by name |
| `Api.RenderedCodeVerifies` | src/utils/api.js:23-29 | `simulateOTPVerification` accepts the decimal rendering of a number exactly when the number lies in [1000, 1000000) |
| `CountrySelector.ListedDialCodes` | src/utils/api.js:7 | every entry kept by the `fetchCountries` filter has a real root, and its dial code is that root followed by the first suffix and is non-empty |
| `Api.SimulateOtpSend` | src/utils/api.js:15-21 | sending always succeeds |
| `AuthForm.OtpSchemaMatchesVerification` | src/utils/api.js:26 | the OTP schema and the simulated verification accept exactly the same codes: 4 to 6 characters, all digits |
| `AuthForm.PhoneIssues` | src/components/auth/AuthForm.jsx:13-15 | no issue exactly when the number has 5 to 15 characters, all digits |
| `AuthForm.OtpFormIssues` | src/components/auth/AuthForm.jsx:17-20 | no issue exactly when the code has 4 to 6 characters, all digits, and the name has 2 to 50 characters |
| `AuthForm.FullPhone` | src/components/auth/AuthForm.jsx:44 | the full number is the country's dial code followed by the typed number |
| `AuthForm.AuthFormView.constructor` | src/components/auth/AuthForm.jsx:23-25 | the form starts at the phone step with no country and no number |
| `AuthForm.AuthFormView.SelectCountry` | src/components/auth/AuthForm.jsx:108 | the selected country is set; nothing else changes |
| `AuthForm.AuthFormView.Back` | src/components/auth/AuthForm.jsx:155 | the form returns to the phone step |
| `AuthForm.AuthFormView.SubmitPhone` | src/components/auth/AuthForm.jsx:36-54 | schema failures and a missing country change nothing; otherwise the session store's loading flag ends down, the full number is stored and the OTP step is shown |
| `AuthForm.AuthFormView.SubmitOtp` | src/components/auth/AuthForm.jsx:56-80 | schema failures change nothing; otherwise login happens with the user record (stored full number, `cca2` or "", the typed name) and the mock token, and the loading flag ends down |
| `CountrySelector.FilteredCountries` | src/components/auth/CountrySelector.jsx:31-33 | exactly the entries whose lower-cased name includes the lower-cased query, each as often as it occurs in the list, as an order-preserving subsequence; an empty query keeps all |
| `CountrySelector.DialCode` | src/components/auth/CountrySelector.jsx:35-37 | the root (the text "undefined" when absent) followed by the first suffix, or the root alone when there is none |
| `CountrySelector.DefaultCountry` | src/components/auth/CountrySelector.jsx:17-19 | no default with a selection or an empty list; otherwise a listed entry: the first "US" entry if there is one, else the first entry |
| `Dashboard.FilteredChatrooms` | src/components/dashboard/Dashboard.jsx:26-29 | every result matches in lower-cased title or description, every matching room is kept as often as it occurs, and the result is an order-preserving subsequence |
| `Dashboard.EmptyQueryShowsAll` | src/components/dashboard/Dashboard.jsx:26-29 | an empty search returns all rooms |
| `Dashboard.DashboardView.constructor` | src/components/dashboard/Dashboard.jsx:17 | no room awaits deletion |
| `Dashboard.DashboardView.HandleDeleteChatroom` | src/components/dashboard/Dashboard.jsx:31-33 | the room awaits confirmation |
| `Dashboard.DashboardView.ConfirmDelete` | src/components/dashboard/Dashboard.jsx:35-41 | with no pending room the store is untouched; otherwise that room is deleted by id and the flags, cursor and timers stay as they were; in both cases the pending room is cleared |
| `CreateChatroomModal.RoomDataIssues` | src/components/dashboard/CreateChatroomModal.jsx:11-14 | no issue exactly when the title has 1 to 100 characters and the description 1 to 500 |
| `CreateChatroomModal.Submit` | src/components/dashboard/CreateChatroomModal.jsx:22-31 | a room is created exactly when the data is valid, from that data unchanged, and nothing else in the store changes; otherwise the store is untouched |

## Left out

- Rendering, event wiring, scrolling, toasts, the clipboard, image upload's file-to-base64 conversion and the theme store: UI and DOM side effects.
- Persistence through zustand `persist` and `localStorage`: I/O and JSON / `Date` (de)serialisation.
- The network request of `fetchCountries` and its error path: I/O. `ListCountries` starts from the parsed entries.
- Setter debouncing of the dashboard search (`debounce`, in a helper file that is not part of this model).
- The zod and react-hook-form machinery: only the checks and their messages are modelled.
- Lengths count characters, not UTF-16 code units. This applies to the length bounds of the form schemas and to `Chat.Preview`, whose `substring(0, 50)` cuts by code units in JavaScript and can split a surrogate pair.
- `toLowerCase` is ASCII-only, so non-ASCII case folding is not modelled.
- `localeCompare` is an abstract total relation. The model does not prove that the JavaScript sort is stable.
- Timer delays (500 ms, 1000-3000 ms) are left out: any pending callback may run next.
- A step that reads the clock several times (the reply's id, timestamp and `lastMessageAt`) reads one `now`.
- `AuthForm.AuthFormView.SubmitPhone`, `AuthForm.AuthFormView.SubmitOtp`: the awaited calls resolve at once, so UI events between `setLoading(true)` and `setLoading(false)` are not interleaved. The `catch` branches are left out because the simulated calls never reject. The "Invalid OTP" branch exists in the model but cannot be taken, because the schema already requires what the verification checks.
- Country entries always have an `idd` object. A missing root is rendered as "undefined", as in JavaScript, and a missing suffix list is treated as empty.

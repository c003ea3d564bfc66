# Chat room client — a Dafny model of its session logic

This project models the logic underneath the React Native chat client's
views. The client signs a user in, lists chat rooms, joins one, shows its
history, and keeps presence and "who is typing" up to date over a socket.

- **`chat_session.dfy`** (`ChatSession.Session`) models the chat screen's
  controller. It holds the rooms, the current room, the message buffer, the
  online and typing users, the connection status, the room-list visibility
  and the typing-stop timer.
  - The socket is its `connected` flag plus `sent`, the log of emitted
    events.
  - Each REST call is a pending request plus a separate "response arrives"
    method that takes the result as a parameter.
  - The 2-second timer is `typingTimer`: an armed flag carrying the room id
    its callback captured. `FireTypingTimer` makes it go off.
  - Alerts are returned as values.
- **`message_input.dfy`** models the message box. It holds the draft and
  the 1-second typing debounce, and records its `onSendMessage`/`onTyping`
  calls in a log.
- **`room_list.dfy`** models the new-room form and its name validation, the
  connection-badge mappings, and the current-room highlight
  (`Types.IsCurrentRoom`).
- **`login_screen.dfy`** models the sign-in form. It covers field
  validation order, the login/register request, the loading and error
  flags, the mode toggle and guest entry.
- **`message_list.dfy`** models message grouping: which messages are own,
  which are consecutive, and where the author label is drawn.
- **`typing_indicator.dfy`** models the typing line's text.
- **`online_users_list.dfy`** models the presence panel and the avatar
  colour hash.
- **`js.dfy`** models the JavaScript semantics the code relies on:
  - `trim` with the exact ECMAScript whitespace set;
  - `length` and `charCodeAt` in UTF-16 code units;
  - `ToInt32` behind `<<`;
  - the decimal text a template literal gives an integer.
- **`types.dfy`** holds the `User`, `Room`, `Message` and `OnlineUser`
  records, plus `Option` and `Result`.

A message timestamp is held as the value `new Date(timestamp).getTime()`
gives: milliseconds, or `InvalidDate` for `NaN`.

Handlers read the latest state. Where the source's handlers capture an
older value, the model does not reproduce that capture (see Left out).

Only the room list's form validates a new room's name
(src/components/RoomList.tsx:28). The screen's `createRoom`
(src/screens/ChatRoomScreen.tsx:190-192) sends any name it is given. So
`ChatSession.Session.CreateRoom` takes any name, and
`RoomList.AcceptedName` validates.

The model also shows one race the source has. A history response replaces
the buffer whichever room is current when it arrives
(`ChatSession.Session.HistoryArrived`). `ChatSession.StaleHistoryOverwrites`
plays it out: after joining room `a` and then room `b`, a late answer for
`a` fills the buffer of `b` with `a`'s messages.

## Model

| member | source | states |
|---|---|---|
| `Types.IsCurrentRoom` | src/components/RoomList.tsx:56-59 | with no current room nothing is highlighted; a room is highlighted only when its id equals the current room's |
| `Types.CurrentRoomById` | src/components/RoomList.tsx:56-59 | the converse: a room with the current room's id is highlighted, whatever its name and creation time |
| `Js.Trim` | src/screens/ChatRoomScreen.tsx:142-149 | `trim` yields the infix between leading and trailing ECMAScript whitespace, starting and ending with non-whitespace; it is empty exactly when the string is all whitespace |
| `Js.TrimIdempotent` | src/components/RoomList.tsx:28-29 | trimming an already trimmed string changes nothing |
| `Js.CharUnits` | src/components/OnlineUsersList.tsx:15-16 | a character is one UTF-16 code unit below U+10000 and two above, every unit below 0x10000 |
| `Js.CodeUnits` | src/components/OnlineUsersList.tsx:15-16 | a string has between one and two code units per character, each below 0x10000 |
| `Js.CodeUnitsRoundTrip` | src/components/OnlineUsersList.tsx:15-16 | decoding the code units gives back the string, so for well-formed strings `length`/`charCodeAt` lose nothing |
| `Js.LengthOfBasicPlane` | src/components/RoomList.tsx:28 | `length` equals the character count exactly when no character lies above U+FFFF |
| `Js.CombineSurrogates` | src/components/OnlineUsersList.tsx:16 | a surrogate pair decodes to a character above U+FFFF |
| `Js.ToInt32` | src/components/OnlineUsersList.tsx:16 | ToInt32 gives a signed 32-bit value congruent to its input modulo 2^32 |
| `Js.ToInt32Unique` | src/components/OnlineUsersList.tsx:16 | that value is unique, so 32-bit values pass through unchanged |
| `Js.ShiftLeft5` | src/components/OnlineUsersList.tsx:16 | `x << 5` is always a signed 32-bit value |
| `Js.DecimalString` | src/components/TypingIndicator.tsx:48 | an integer's template-literal text is a non-empty run of digits, with no leading zero unless the number is 0, and one digit exactly below 10 |
| `Js.DecimalRoundTrip` | src/components/TypingIndicator.tsx:48 | reading the decimal text back gives the number |
| `Js.DecimalLength` | src/screens/LoginScreen.tsx:54 | numbers below 10^k have at most k digits |
| `MessageList.IsConsecutive` | src/components/MessageList.tsx:38-43 | there is no continuation without a predecessor; a continuation has the predecessor's username and user id, valid timestamps, and a gap below 300000 ms (negative gaps included) |
| `MessageList.ConsecutiveWhenClose` | src/components/MessageList.tsx:40-42 | the converse: same author and a gap below 300000 ms, even a negative one, make a continuation |
| `MessageList.IsOwn` | src/components/MessageList.tsx:46 | a message is own exactly when its user id is the current user's |
| `MessageList.ShowsAuthor` | src/components/MessageList.tsx:53 | a label is never drawn over an own message; over the first message, or one whose predecessor has another author, it is drawn exactly when the message is not own |
| `MessageList.OwnIgnoresUsername` | src/components/MessageList.tsx:46 | "own" depends on user ids only; renaming either side changes nothing |
| `MessageList.Previous` | src/components/MessageList.tsx:47 | only index 0 has no predecessor |
| `MessageList.Render` | src/components/MessageList.tsx:45-82 | shows the welcome placeholder exactly for an empty list; otherwise one row per message in order, own iff same user id, first row never consecutive, label shown iff neither own nor consecutive |
| `MessageList.RunSharesAuthor` | src/components/MessageList.tsx:38-53 | every message of a run has the run head's username and user id; no label is drawn after the head; timestamps grow by under 300000 ms per message |
| `TypingIndicator.TypingText` | src/components/TypingIndicator.tsx:9-50 | renders nothing for an empty list; gives "`a` is typing" and "`a` and `b` are typing" in list order, and "`n` people are typing" for three or more |
| `TypingIndicator.NamesNobody` | src/components/TypingIndicator.tsx:47-48 | with three or more users the text depends on their number only |
| `TypingIndicator.CountReadsBack` | src/components/TypingIndicator.tsx:48 | with three or more users the text is a digit run, which reads back as the count, followed by " people are typing" |
| `OnlineUsersList.HashStep` | src/components/OnlineUsersList.tsx:16 | one round moves the hash by at most the code unit plus 2^31 beyond its own size, since `hash << 5` is a 32-bit value |
| `OnlineUsersList.Hash` | src/components/OnlineUsersList.tsx:14-17 | the fold starts at 0, and over code units below 0x10000 its size is at most n·(2^31 + 2^16) for n units |
| `OnlineUsersList.AvatarColorOf` | src/components/OnlineUsersList.tsx:12-19 | the colour depends only on the name and is always one of the eight palette entries |
| `OnlineUsersList.AvatarColor` | src/components/OnlineUsersList.tsx:12-19 | the hash loop over the code units computes h' = code + ToInt32(ToInt32(h)·32) − h and returns palette[abs(h) mod 8] |
| `OnlineUsersList.EmptyNameColor` | src/components/OnlineUsersList.tsx:14-18 | the empty name keeps hash 0 and gets '#007bff' |
| `OnlineUsersList.StepWhileSmall` | src/components/OnlineUsersList.tsx:16 | while abs(h) < 2^26 a round is `31·h + code` |
| `OnlineUsersList.ExactHash` | src/components/OnlineUsersList.tsx:14-17 | for names up to four million code units every intermediate hash is below 2^53, so doubles compute it exactly |
| `OnlineUsersList.Render` | src/components/OnlineUsersList.tsx:43-61 | the panel counts `users.length`, shows the placeholder exactly when empty, and has one row per user, in order, with that user's name and the avatar colour of that name |
| `ChatSession.ExcludeSelf` | src/screens/ChatRoomScreen.tsx:70-72 | the local user's name never remains; every other received name does |
| `ChatSession.ExcludeSelfCounts` | src/screens/ChatRoomScreen.tsx:71 | every other name keeps its number of occurrences; the own name has none |
| `ChatSession.ExcludeSelfAppend` | src/screens/ChatRoomScreen.tsx:71 | filtering distributes over concatenation, so the remaining names keep their order |
| `ChatSession.ExcludeSelfKeepsOthers` | src/screens/ChatRoomScreen.tsx:71 | a list without the own name passes through unchanged |
| `ChatSession.IndicatorNeverShowsSelf` | src/screens/ChatRoomScreen.tsx:70-72 | the typing indicator fed from the filtered list never names the local user |
| `ChatSession.Session.constructor` | src/screens/ChatRoomScreen.tsx:22-35 | the screen mounts with empty lists, no room, status connecting, room list shown, no timer, nothing emitted, room list requested |
| `ChatSession.Session.InputDisabled` | src/screens/ChatRoomScreen.tsx:245 | the message box is disabled whenever no room is current, and whenever the status is connecting or disconnected |
| `ChatSession.Session.JoinRoom` | src/screens/ChatRoomScreen.tsx:109-129 | disconnected: an alert and no change. Same room id: only hides the room list. Otherwise: the room becomes current, messages/online/typing are emptied, exactly one join-room {roomId, username, userId} is emitted, and the history is requested |
| `ChatSession.Session.HistoryArrived` | src/screens/ChatRoomScreen.tsx:131-138 | a fetched list overwrites the buffer in server order, dropping anything appended meanwhile; a failure keeps the buffer and alerts with the room name; the room list is hidden in both cases |
| `ChatSession.Session.RoomsArrived` | src/screens/ChatRoomScreen.tsx:95-107 | the fetched list replaces `rooms`; `rooms[0]` is joined only when the list is non-empty and no room is current; a failure only alerts |
| `ChatSession.Session.CreateRoom` | src/screens/ChatRoomScreen.tsx:190-192 | requests creation of the name as given |
| `ChatSession.Session.CreateRoomArrived` | src/screens/ChatRoomScreen.tsx:190-199 | the new room is appended at the end of `rooms` and then joined, with JoinRoom's guards; a failure only alerts |
| `ChatSession.Session.SendMessage` | src/screens/ChatRoomScreen.tsx:141-153 | disconnected, no room, or whitespace-only text: an alert and nothing emitted. Otherwise exactly one chat-message carrying the trimmed text; the buffer is never appended to |
| `ChatSession.Session.HandleTyping` | src/screens/ChatRoomScreen.tsx:155-188 | without connection or room: a no-op. `true` emits typing-true and leaves exactly one timer, for the current room. `false` emits typing-false and leaves none |
| `ChatSession.Session.FireTypingTimer` | src/screens/ChatRoomScreen.tsx:169-176 | the timer emits one typing-false for the room it captured and disarms |
| `ChatSession.StaleHistoryOverwrites` | src/screens/ChatRoomScreen.tsx:109-133 | joining `a` then `b` and receiving `a`'s history leaves `b` current with `a`'s messages in the buffer, none of them for `b`, and `b`'s request still waiting |
| `ChatSession.TypingBurst` | src/screens/ChatRoomScreen.tsx:158-176 | any number of typing-true signals followed by the timer emit exactly one stop event |
| `ChatSession.Session.OnConnect` | src/screens/ChatRoomScreen.tsx:37-47 | status connected; join-room re-emitted for the current room if any; the input is disabled iff there is no current room |
| `ChatSession.Session.OnDisconnect` | src/screens/ChatRoomScreen.tsx:49-52 | status disconnected, and the input is disabled (line 245) |
| `ChatSession.Session.OnConnectError` | src/screens/ChatRoomScreen.tsx:54-58 | status disconnected, input disabled, the connection-error alert |
| `ChatSession.Session.OnChatMessage` | src/screens/ChatRoomScreen.tsx:62-64 | an inbound message is appended at the end of the buffer |
| `ChatSession.Session.OnOnlineUsers` | src/screens/ChatRoomScreen.tsx:66-68 | the presence list is replaced wholesale |
| `ChatSession.Session.OnTyping` | src/screens/ChatRoomScreen.tsx:70-72 | the typing list becomes the received list minus the own username |
| `ChatSession.Session.ShowRoomList` | src/screens/ChatRoomScreen.tsx:216 | the back button shows the room list |
| `ChatSession.Session.SetUsersListVisible` | src/screens/ChatRoomScreen.tsx:231 | the presence panel opens or closes |
| `MessageInput.Input.constructor` | src/components/MessageInput.tsx:15-16 | empty draft, no timer, no calls |
| `MessageInput.Input.SendDisabled` | src/components/MessageInput.tsx:59-61 | the send button is disabled exactly when the box is disabled or the draft is whitespace only |
| `MessageInput.Input.Submit` | src/components/MessageInput.tsx:18-24 | acts exactly when the send button (line 61) is enabled, i.e. the trimmed draft is non-empty and the box enabled. It calls onSendMessage with the untrimmed draft, clears the draft, then calls onTyping(false); a pending timer is kept |
| `MessageInput.Input.InputChange` | src/components/MessageInput.tsx:26-42 | the value always becomes the draft. A non-empty value (whitespace counts) in an enabled box calls onTyping(true) and leaves one armed timer. Otherwise onTyping(false) is called and the pending timer is kept |
| `MessageInput.Input.FireTimer` | src/components/MessageInput.tsx:36-38 | the timer calls onTyping(false) once and is gone |
| `MessageInput.SendThenTimer` | src/components/MessageInput.tsx:18-38 | a send with a timer pending is followed by a second onTyping(false) |
| `RoomList.AcceptedName` | src/components/RoomList.tsx:27-33 | a draft is accepted iff its trimmed form is non-empty and at most 30 code units; the trimmed form is what is submitted |
| `RoomList.AcceptedNameStable` | src/components/RoomList.tsx:28-29 | an accepted name is accepted again unchanged |
| `RoomList.AcceptedNameBasicPlane` | src/components/RoomList.tsx:28 | for characters below U+10000 exactly 1–30 trimmed characters are accepted |
| `RoomList.CreateRoomForm.constructor` | src/components/RoomList.tsx:24-25 | the form starts closed with an empty draft |
| `RoomList.CreateRoomForm.Open` | src/components/RoomList.tsx:69 | the + button opens the form |
| `RoomList.CreateRoomForm.EditDraft` | src/components/RoomList.tsx:87 | typing sets the draft |
| `RoomList.CreateRoomForm.CreateDisabled` | src/components/RoomList.tsx:93 | the disabled Create button only blocks drafts the handler rejects anyway |
| `RoomList.CreateRoomForm.HandleCreate` | src/components/RoomList.tsx:27-33 | on acceptance the trimmed name is submitted, the draft cleared and the form closed; on rejection nothing changes |
| `RoomList.CreateRoomForm.Cancel` | src/components/RoomList.tsx:92 | Cancel closes the form and clears the draft |
| `RoomList.StatusColor` | src/components/RoomList.tsx:35-42 | the fallback grey '#6c757d' is given exactly to strings other than the three statuses |
| `RoomList.StatusText` | src/components/RoomList.tsx:44-51 | the '⚪ Unknown' text is given exactly to strings other than the three statuses |
| `RoomList.StatusMappingsDistinct` | src/components/RoomList.tsx:35-51 | connected, connecting and disconnected get three distinct colours and texts, none the fallback |
| `RoomList.OtherStatusIsUnknown` | src/components/RoomList.tsx:40-49 | any other string maps to grey and "Unknown" |
| `LoginScreen.GuestUser` | src/screens/LoginScreen.tsx:54-60 | the guest's name is "Guest" then 1–5 digits reading back as the draw in [0, 99999], with no leading zero (only draw 0 gives "Guest0"); the id is the given uuid; the token is 'guest-token' |
| `LoginScreen.FailureMessage` | src/screens/LoginScreen.tsx:43 | the error's own message, or 'Authentication failed' when it has none |
| `LoginScreen.LoginForm.constructor` | src/screens/LoginScreen.tsx:14-18 | login mode, empty fields, not loading, no error |
| `LoginScreen.LoginForm.EditUsername` | src/screens/LoginScreen.tsx:84-88 | the username field changes only while not loading |
| `LoginScreen.LoginForm.EditPassword` | src/screens/LoginScreen.tsx:97-102 | the password field changes only while not loading |
| `LoginScreen.LoginForm.Submit` | src/screens/LoginScreen.tsx:20-39 | a whitespace-only username gives 'Username is required', checked before the password; then a whitespace-only password gives 'Password is required'; neither makes a request. Otherwise the error is cleared, loading starts, and register or login is requested with the trimmed username and the untrimmed password |
| `LoginScreen.LoginForm.AuthArrived` | src/screens/LoginScreen.tsx:40-47 | a user is stored and then passed to onLogin; a failure sets the error to the message or the fallback and alerts; loading ends either way |
| `LoginScreen.LoginForm.ToggleMode` | src/screens/LoginScreen.tsx:123-127 | flips register/login and clears error and password, leaving the username |
| `LoginScreen.LoginForm.GuestLogin` | src/screens/LoginScreen.tsx:50-69 | the guest user is stored and passed to onLogin; error cleared and loading off at the end |

## Left out

- The socket.io client and its process-wide singleton (src/utils/socket.ts) are replaced by the `connected` flag and the `sent` log. Reconnection and buffering of emits belong to the library.
- The REST wrappers (src/api/*.ts) are network I/O. A response is a method parameter, and the `data.error || fallback` choice of error text is folded into that parameter.
- A response step may only answer a request that was made. The model keeps each pending request, but it does not model how long a request takes.
- Session restore, navigation, logout and AsyncStorage (src/App.tsx) are plumbing. Writing the user to storage is the `stored` field, and it always succeeds. The catch branches a failed storage write would take in LoginScreen.tsx:42-44 and 63-65 are therefore not modelled.
- Timer durations are not modelled as time. The 2000 ms and 1000 ms delays are named constants; timers are armed flags that go off through explicit steps.
- The React effect at ChatRoomScreen.tsx:32-93 is treated as registering its handlers once. Its re-run and cleanup whenever `currentRoom` changes are not modelled, including the socket disconnect and reconnect that cleanup causes. Neither are unmount teardown or the stale values the source's closures capture: the `connect` handler and `loadRooms` read the latest current room here.
- The `user-joined` and `user-left` handlers only write to the console, so they are not modelled.
- `formatTime` depends on the clock, fractional hours and locale formatting, so it is not modelled. Date parsing is abstracted into the `Timestamp` value.
- Rendering, styling, animations, scrolling and the chat header's status dot and label (ChatRoomScreen.tsx:222-225) are not modelled. Neither is the avatar initial, which needs `toUpperCase` case mapping. Alerts are modelled only as returned values.
- The `maxLength` limits of the text fields (30 on the room name, 20 on the username, 500 on the message) are input-widget behaviour and are not modelled. A draft can therefore be longer than the widget allows, which makes the 30-code-unit rejection in AcceptedName reachable in the model.
- `Math.random` and `uuidv4` are inputs to GuestLogin. Their draw is a number in [0, 99999] and an id string.
- Ill-formed UTF-16 strings are not modelled. A Dafny `string` cannot hold an unpaired surrogate, but a JavaScript string can, for example a username or message text sent by the server. `length`, `charCodeAt`, `trim` and the avatar hash accept such strings; the model covers well-formed strings only.
- The avatar hash is stated over exact integers. ExactHash shows this matches the source's doubles for names of up to four million code units; longer names, where doubles round, are not modelled.
- How MessageInput's callbacks connect to the screen's handlers is not modelled. The two state machines are separate classes.
- babel.config.js is build configuration.

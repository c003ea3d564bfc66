/** The chat screen's session controller: the rooms, the current room, the
    message buffer, presence and typing lists, the connection status and
    the typing-stop timer, driven by user intents, by the socket's inbound
    events and by the responses to REST requests.

    The socket is its `connected` flag and the log `sent` of the events
    emitted on it. A REST request is recorded as pending when it is made;
    its response is a separate step whose result is a parameter. The
    typing-stop timer is `typingTimer`: Some(room id) while armed, holding
    the room its callback captured, and it goes off through
    FireTypingTimer. Alerts are returned to the caller. */
module ChatSession {
  import opened Types
  import opened Js
  import TypingIndicator

  /** How long after the last keystroke the stop event is sent. */
  const TypingStopDelayMs: nat := 2000

  /** Events the client emits on the socket. */
  datatype OutEvent =
    | JoinRoomEvent(roomId: string, username: string, userId: string)
    | ChatMessageEvent(roomId: string, message: string, username: string, userId: string)
    | TypingEvent(roomId: string, username: string, isTyping: bool)

  datatype Alert = Alert(title: string, text: string)

  const NotConnectedAlert: Alert :=
    Alert("Connection Status", "Not connected to chat server. Please wait or check connection.")
  const CannotSendAlert: Alert :=
    Alert("Error", "Cannot send message. Not connected or no room selected.")
  const ConnectionErrorAlert: Alert :=
    Alert("Connection Error", "Could not connect to the chat server. Please check your network or server status.")

  /** The received typing list without the local user: every other name
      keeps its place and its number of occurrences. */
  function ExcludeSelf(received: seq<string>, me: string): (r: seq<string>)
    ensures me !in r
    ensures forall x :: x in r <==> x in received && x != me
  {
    if received == [] then []
    else (if received[0] == me then [] else [received[0]]) + ExcludeSelf(received[1..], me)
  }

  /** Every other name occurs as often as it was received. */
  lemma {:induction false} ExcludeSelfCounts(received: seq<string>, me: string)
    ensures multiset(ExcludeSelf(received, me)) == multiset(received)[me := 0]
  {
    if received != [] {
      ExcludeSelfCounts(received[1..], me);
      assert received == [received[0]] + received[1..];
    }
  }

  /** Filtering commutes with concatenation, so the names that remain keep
      their order. */
  lemma {:induction false} ExcludeSelfAppend(a: seq<string>, b: seq<string>, me: string)
    ensures ExcludeSelf(a + b, me) == ExcludeSelf(a, me) + ExcludeSelf(b, me)
  {
    if a == [] {
      assert a + b == b;
    } else {
      var head := if a[0] == me then [] else [a[0]];
      assert (a + b)[0] == a[0];
      assert (a + b)[1..] == a[1..] + b;
      ExcludeSelfAppend(a[1..], b, me);
      calc {
        ExcludeSelf(a + b, me);
        head + ExcludeSelf(a[1..] + b, me);
        head + (ExcludeSelf(a[1..], me) + ExcludeSelf(b, me));
        (head + ExcludeSelf(a[1..], me)) + ExcludeSelf(b, me);
        ExcludeSelf(a, me) + ExcludeSelf(b, me);
      }
    }
  }

  /** A list without the local user passes through unchanged. */
  lemma {:induction false} ExcludeSelfKeepsOthers(received: seq<string>, me: string)
    requires me !in received
    ensures ExcludeSelf(received, me) == received
  {
    if received != [] {
      ExcludeSelfKeepsOthers(received[1..], me);
    }
  }

  /** The typing indicator never names the local user: when it names
      anyone, it names entries of the filtered list. */
  lemma IndicatorNeverShowsSelf(received: seq<string>, me: string)
    ensures var shown := ExcludeSelf(received, me);
            && (|shown| == 1 ==> TypingIndicator.TypingText(shown) == Some(shown[0] + " is typing") && shown[0] != me)
            && (|shown| == 2 ==> shown[0] != me && shown[1] != me)
  {
  }

  /** The number of typing-stop events in a log. */
  function StopCount(events: seq<OutEvent>): nat {
    if events == [] then 0
    else StopCount(events[..|events| - 1])
         + (if events[|events| - 1].TypingEvent? && !events[|events| - 1].isTyping then 1 else 0)
  }

  class Session {
    /** The signed-in user, fixed for the screen's lifetime. */
    const user: User

    var rooms: seq<Room>
    var currentRoom: Option<Room>
    var messages: seq<Message>
    var onlineUsers: seq<OnlineUser>
    var typingUsers: seq<string>
    var usersListVisible: bool
    var status: Status
    var roomListVisible: bool

    /** The socket's own `connected` flag. */
    var connected: bool
    /** The events emitted on the socket, oldest first. */
    var sent: seq<OutEvent>
    /** The armed typing-stop timer and the room id it will report. */
    var typingTimer: Option<string>

    /** The room-list request made when the screen mounts, until it answers. */
    var roomsLoading: bool
    /** History requests in flight, one per room joined. */
    var pendingHistory: seq<Room>
    /** Room-creation requests in flight, by requested name. */
    var pendingCreates: seq<string>

    /** The screen as it mounts: the socket asked to connect, the room list
        requested, the status `connecting`. */
    constructor (user: User)
      ensures this.user == user
      ensures rooms == [] && currentRoom == None && messages == []
      ensures onlineUsers == [] && typingUsers == [] && !usersListVisible
      ensures status == Connecting && roomListVisible
      ensures !connected && sent == [] && typingTimer == None
      ensures roomsLoading && pendingHistory == [] && pendingCreates == []
    {
      this.user := user;
      rooms, currentRoom, messages := [], None, [];
      onlineUsers, typingUsers, usersListVisible := [], [], false;
      status, roomListVisible := Connecting, true;
      connected, sent, typingTimer := false, [], None;
      roomsLoading, pendingHistory, pendingCreates := true, [], [];
    }

    function JoinEvent(room: Room): OutEvent {
      JoinRoomEvent(room.id, user.username, user.userId)
    }

    /** The message box is disabled without a current room or a live
        connection. */
    predicate InputDisabled()
      reads this
      ensures currentRoom.None? ==> InputDisabled()
      ensures status == Connecting || status == Disconnected ==> InputDisabled()
    {
      currentRoom.None? || status != Connected
    }

    /** The room-scoped state is as before and nothing was emitted or
        requested. */
    twostate predicate RoomStateUnchanged()
      reads this
    {
      && currentRoom == old(currentRoom) && messages == old(messages)
      && onlineUsers == old(onlineUsers) && typingUsers == old(typingUsers)
      && sent == old(sent) && pendingHistory == old(pendingHistory)
    }

    /** `room` is now current, the room-scoped lists are empty, exactly one
        join event was emitted and its history requested. */
    twostate predicate SwitchedTo(room: Room)
      reads this
    {
      && currentRoom == Some(room) && messages == [] && onlineUsers == [] && typingUsers == []
      && sent == old(sent) + [JoinEvent(room)]
      && pendingHistory == old(pendingHistory) + [room]
    }

    /** `joinRoom`: refused with an alert while the socket is down; on the
        current room it only hides the room list; otherwise it switches
        rooms and requests the history. */
    method JoinRoom(room: Room) returns (alert: Option<Alert>)
      modifies this`currentRoom, this`messages, this`onlineUsers, this`typingUsers,
               this`sent, this`pendingHistory, this`roomListVisible
      ensures !old(connected) ==>
                alert == Some(NotConnectedAlert) && RoomStateUnchanged()
                && roomListVisible == old(roomListVisible)
      ensures old(connected) && IsCurrentRoom(old(currentRoom), room) ==>
                alert == None && RoomStateUnchanged() && !roomListVisible
      ensures old(connected) && !IsCurrentRoom(old(currentRoom), room) ==>
                alert == None && SwitchedTo(room) && roomListVisible == old(roomListVisible)
    {
      if !connected {
        return Some(NotConnectedAlert);
      }
      if IsCurrentRoom(currentRoom, room) {
        roomListVisible := false;
        return None;
      }
      currentRoom := Some(room);
      messages := [];
      onlineUsers := [];
      typingUsers := [];
      sent := sent + [JoinEvent(room)];
      pendingHistory := pendingHistory + [room];
      alert := None;
    }

    /** The answer to the `k`-th pending history request. A list replaces
        the buffer wholesale, in server order and whichever room is current
        by then; a failure leaves the buffer and raises an alert. Either way
        the room list is hidden. */
    method HistoryArrived(k: nat, result: Result<seq<Message>>) returns (alert: Option<Alert>)
      requires k < |pendingHistory|
      modifies this`messages, this`pendingHistory, this`roomListVisible
      ensures pendingHistory == old(pendingHistory[..k] + pendingHistory[k + 1..])
      ensures result.Ok? ==> messages == result.value && alert == None
      ensures result.Err? ==>
                messages == old(messages)
                && alert == Some(Alert("Error", "Failed to load messages for room "
                                                + old(pendingHistory[k]).name + ": " + result.message))
      ensures !roomListVisible
    {
      var room := pendingHistory[k];
      pendingHistory := pendingHistory[..k] + pendingHistory[k + 1..];
      match result {
        case Ok(data) =>
          messages := data;
          alert := None;
        case Err(msg) =>
          alert := Some(Alert("Error", "Failed to load messages for room " + room.name + ": " + msg));
      }
      roomListVisible := false;
    }

    /** The answer to the room-list request: the list replaces `rooms`, and
        when it is not empty and no room is current its first room is
        joined. A failure only raises an alert. */
    method RoomsArrived(result: Result<seq<Room>>) returns (alert: Option<Alert>)
      requires roomsLoading
      modifies this`rooms, this`roomsLoading, this`currentRoom, this`messages, this`onlineUsers,
               this`typingUsers, this`sent, this`pendingHistory, this`roomListVisible
      ensures !roomsLoading
      ensures result.Ok? ==> rooms == result.value
      ensures result.Err? ==>
                rooms == old(rooms) && RoomStateUnchanged() && roomListVisible == old(roomListVisible)
                && alert == Some(Alert("Error", "Failed to load chat rooms: " + result.message))
      ensures result.Ok? && (result.value == [] || old(currentRoom).Some?) ==>
                alert == None && RoomStateUnchanged() && roomListVisible == old(roomListVisible)
      ensures result.Ok? && result.value != [] && old(currentRoom).None? && old(connected) ==>
                alert == None && SwitchedTo(result.value[0]) && roomListVisible == old(roomListVisible)
      ensures result.Ok? && result.value != [] && old(currentRoom).None? && !old(connected) ==>
                alert == Some(NotConnectedAlert) && RoomStateUnchanged()
                && roomListVisible == old(roomListVisible)
    {
      roomsLoading := false;
      match result
      case Ok(data) =>
        rooms := data;
        alert := None;
        if |data| > 0 && currentRoom.None? {
          alert := JoinRoom(data[0]);
        }
      case Err(msg) =>
        alert := Some(Alert("Error", "Failed to load chat rooms: " + msg));
    }

    /** `createRoom`: sends the creation request for `name` as given. */
    method CreateRoom(name: string)
      modifies this`pendingCreates
      ensures pendingCreates == old(pendingCreates) + [name]
    {
      pendingCreates := pendingCreates + [name];
    }

    /** The answer to the `k`-th pending creation request: the new room is
        appended to `rooms` and joined; a failure only raises an alert. */
    method CreateRoomArrived(k: nat, result: Result<Room>) returns (alert: Option<Alert>)
      requires k < |pendingCreates|
      modifies this`rooms, this`pendingCreates, this`currentRoom, this`messages, this`onlineUsers,
               this`typingUsers, this`sent, this`pendingHistory, this`roomListVisible
      ensures pendingCreates == old(pendingCreates[..k] + pendingCreates[k + 1..])
      ensures result.Err? ==>
                rooms == old(rooms) && RoomStateUnchanged() && roomListVisible == old(roomListVisible)
                && alert == Some(Alert("Error", "Failed to create room: " + result.message))
      ensures result.Ok? ==> rooms == old(rooms) + [result.value]
      ensures result.Ok? && !old(connected) ==>
                alert == Some(NotConnectedAlert) && RoomStateUnchanged()
                && roomListVisible == old(roomListVisible)
      ensures result.Ok? && old(connected) && IsCurrentRoom(old(currentRoom), result.value) ==>
                alert == None && RoomStateUnchanged() && !roomListVisible
      ensures result.Ok? && old(connected) && !IsCurrentRoom(old(currentRoom), result.value) ==>
                alert == None && SwitchedTo(result.value) && roomListVisible == old(roomListVisible)
    {
      pendingCreates := pendingCreates[..k] + pendingCreates[k + 1..];
      match result
      case Ok(room) =>
        rooms := rooms + [room];
        alert := JoinRoom(room);
      case Err(msg) =>
        alert := Some(Alert("Error", "Failed to create room: " + msg));
    }

    /** `sendMessage`: refused with an alert when disconnected, without a
        room, or for whitespace-only text; otherwise emits the trimmed text
        once. The buffer is not touched: the server's echo appends it. */
    method SendMessage(text: string) returns (alert: Option<Alert>)
      modifies this`sent
      ensures !old(connected) || old(currentRoom).None? || AllWhitespace(text) ==>
                alert == Some(CannotSendAlert) && sent == old(sent)
      ensures old(connected) && old(currentRoom).Some? && !AllWhitespace(text) ==>
                alert == None
                && sent == old(sent) + [ChatMessageEvent(currentRoom.value.id, Trim(text),
                                                         user.username, user.userId)]
    {
      if !connected || currentRoom.None? || Trim(text) == [] {
        return Some(CannotSendAlert);
      }
      sent := sent + [ChatMessageEvent(currentRoom.value.id, Trim(text), user.username, user.userId)];
      alert := None;
    }

    /** `handleTyping`: nothing without a connection and a room. Otherwise
        the typing flag is emitted; `true` replaces any armed timer by one
        for the current room, `false` disarms it. */
    method HandleTyping(isTyping: bool)
      modifies this`sent, this`typingTimer
      ensures !old(connected) || old(currentRoom).None? ==>
                sent == old(sent) && typingTimer == old(typingTimer)
      ensures old(connected) && old(currentRoom).Some? ==>
                && sent == old(sent) + [TypingEvent(currentRoom.value.id, user.username, isTyping)]
                && typingTimer == (if isTyping then Some(currentRoom.value.id) else None)
    {
      if !connected || currentRoom.None? {
        return;
      }
      var roomId := currentRoom.value.id;
      sent := sent + [TypingEvent(roomId, user.username, isTyping)];
      if isTyping {
        typingTimer := Some(roomId);
      } else {
        typingTimer := None;
      }
    }

    /** The armed timer goes off: one stop event for the room it captured,
        and the timer is disarmed. */
    method FireTypingTimer()
      requires typingTimer.Some?
      modifies this`sent, this`typingTimer
      ensures sent == old(sent) + [TypingEvent(old(typingTimer).value, user.username, false)]
      ensures typingTimer == None
    {
      sent := sent + [TypingEvent(typingTimer.value, user.username, false)];
      typingTimer := None;
    }

    /** The socket's `connect` event: status `connected`, and the current
        room, if any, joined again on the server. */
    method OnConnect()
      modifies this`connected, this`status, this`sent
      ensures connected && status == Connected
      ensures InputDisabled() <==> currentRoom.None?
      ensures sent == old(sent) + (if currentRoom.Some? then [JoinEvent(currentRoom.value)] else [])
    {
      connected := true;
      status := Connected;
      if currentRoom.Some? {
        sent := sent + [JoinEvent(currentRoom.value)];
      }
    }

    /** The socket's `disconnect` event. */
    method OnDisconnect()
      modifies this`connected, this`status
      ensures !connected && status == Disconnected && InputDisabled()
    {
      connected := false;
      status := Disconnected;
    }

    /** The socket's `connect_error` event: disconnected, with an alert. */
    method OnConnectError() returns (alert: Alert)
      modifies this`connected, this`status
      ensures !connected && status == Disconnected && InputDisabled()
      ensures alert == ConnectionErrorAlert
    {
      connected := false;
      status := Disconnected;
      alert := ConnectionErrorAlert;
    }

    /** An inbound `chat-message`: appended at the end of the buffer. */
    method OnChatMessage(m: Message)
      modifies this`messages
      ensures messages == old(messages) + [m]
    {
      messages := messages + [m];
    }

    /** An inbound `online-users`: the presence list is replaced, not merged. */
    method OnOnlineUsers(users: seq<OnlineUser>)
      modifies this`onlineUsers
      ensures onlineUsers == users
    {
      onlineUsers := users;
    }

    /** An inbound `typing`: the received list minus the local user. */
    method OnTyping(received: seq<string>)
      modifies this`typingUsers
      ensures typingUsers == ExcludeSelf(received, user.username)
      ensures user.username !in typingUsers
    {
      typingUsers := ExcludeSelf(received, user.username);
    }

    /** The header's back button. */
    method ShowRoomList()
      modifies this`roomListVisible
      ensures roomListVisible
    {
      roomListVisible := true;
    }

    /** The presence panel's toggle and close button. */
    method SetUsersListVisible(visible: bool)
      modifies this`usersListVisible
      ensures usersListVisible == visible
    {
      usersListVisible := visible;
    }
  }

  /** However many typing signals arrive while the timer is armed, only the
      last timer survives, so the burst ends in exactly one stop event. */
  method TypingBurst(s: Session, extra: nat)
    requires s.connected && s.currentRoom.Some?
    modifies s
    ensures StopCount(s.sent) == StopCount(old(s.sent)) + 1
    ensures s.typingTimer == None
  {
    var i := 0;
    var start := s.sent;
    s.HandleTyping(true);
    assert s.sent[..|s.sent| - 1] == start;
    while i < extra
      invariant i <= extra
      invariant s.connected && s.currentRoom == old(s.currentRoom)
      invariant s.typingTimer.Some?
      invariant StopCount(s.sent) == StopCount(old(s.sent))
    {
      var before := s.sent;
      s.HandleTyping(true);
      assert s.sent[..|s.sent| - 1] == before;
      i := i + 1;
    }
    var before := s.sent;
    s.FireTypingTimer();
    assert s.sent[..|s.sent| - 1] == before;
  }

  /** A history answer lands in whichever room is current when it arrives.
      Join `a`, then `b`, and let `a`'s history answer first: `b` is the
      current room, but the buffer holds `a`'s messages, none of them for
      `b`, and `b`'s own request is still waiting. */
  method StaleHistoryOverwrites(s: Session, a: Room, b: Room, history: seq<Message>)
    requires s.connected && s.currentRoom.None? && s.pendingHistory == [] && a.id != b.id
    requires forall i :: 0 <= i < |history| ==> history[i].roomId == a.id
    modifies s
    ensures s.currentRoom == Some(b) && s.messages == history
    ensures forall i :: 0 <= i < |s.messages| ==> s.messages[i].roomId != s.currentRoom.value.id
    ensures s.pendingHistory == [b]
    ensures s.sent == old(s.sent) + [s.JoinEvent(a), s.JoinEvent(b)]
  {
    var alert := s.JoinRoom(a);
    alert := s.JoinRoom(b);
    alert := s.HistoryArrived(0, Ok(history));
  }
}

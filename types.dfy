/** The records the client exchanges with the server, and the small
    Option/Result wrappers the rest of the model uses for absent values and
    for requests that can fail. */
module Types {

  datatype Option<+T> = None | Some(value: T)

  /** The outcome of a request to the server: a value, or the message of
      the error it was rejected with (the empty string when the error carried
      no message). */
  datatype Result<+T> = Ok(value: T) | Err(message: string)

  /** A signed-in user: guests get a client-generated id and a fixed token. */
  datatype User = User(userId: string, username: string, token: string)

  /** A chat room as listed by the server. */
  datatype Room = Room(id: string, name: string, createdAt: string)

  /** The instant a message's timestamp string denotes, as `Date.getTime`
      gives it: milliseconds since the epoch, or no number at all (`NaN`)
      when the string is not a date. */
  datatype Timestamp = Millis(ms: int) | InvalidDate

  /** A chat message; `timestamp` is the parsed form of the server's string. */
  datatype Message = Message(
    id: string,
    roomId: string,
    message: string,
    username: string,
    userId: string,
    timestamp: Timestamp)

  /** A presence entry; `socketId` is optional in the server's payload. */
  datatype OnlineUser = OnlineUser(username: string, userId: string, socketId: Option<string>)

  /** The connection status the chat screen shows. */
  datatype Status = Connecting | Connected | Disconnected {
    /** The string the screen passes around for this status. */
    function Name(): string {
      match this
      case Connecting => "connecting"
      case Connected => "connected"
      case Disconnected => "disconnected"
    }
  }

  /** `current?._id === room._id`: the room is the current one. */
  predicate IsCurrentRoom(current: Option<Room>, room: Room)
    ensures current.None? ==> !IsCurrentRoom(current, room)
    ensures current == Some(room) ==> IsCurrentRoom(current, room)
    ensures IsCurrentRoom(current, room) ==> current.value.id == room.id
  {
    current.Some? && current.value.id == room.id
  }

  /** The highlight compares ids only: a room with the current room's id is
      highlighted whatever its name and creation time. */
  lemma CurrentRoomById(current: Room, room: Room)
    requires current.id == room.id
    ensures IsCurrentRoom(Some(current), room)
  {
  }
}

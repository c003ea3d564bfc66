/** The room list: the form that names a new room, the connection badge,
    and the highlight on the current room (Types.IsCurrentRoom). */
module RoomList {
  import opened Types
  import opened Js

  /** The longest room name accepted, in UTF-16 code units after trimming. */
  const MaxRoomNameLength: nat := 30

  /** The name `handleCreateRoom` submits for a draft: the trimmed draft
      when it is non-empty and at most 30 code units long, else nothing. */
  function AcceptedName(draft: string): (r: Option<string>)
    ensures r.Some? <==> !AllWhitespace(draft) && Length(Trim(draft)) <= MaxRoomNameLength
    ensures r.Some? ==> r.value == Trim(draft) && 1 <= Length(r.value) <= MaxRoomNameLength
    ensures r.Some? ==> !IsWhitespace(r.value[0]) && !IsWhitespace(r.value[|r.value| - 1])
  {
    var name := Trim(draft);
    if name != [] && Length(name) <= MaxRoomNameLength then Some(name) else None
  }

  /** An accepted name is accepted again as it is. */
  lemma AcceptedNameStable(draft: string)
    requires AcceptedName(draft).Some?
    ensures AcceptedName(AcceptedName(draft).value) == AcceptedName(draft)
  {
    TrimIdempotent(draft);
  }

  /** For names of characters below U+10000 the limit is a character count:
      1 to 30 characters after trimming. */
  lemma AcceptedNameBasicPlane(draft: string)
    requires forall i :: 0 <= i < |draft| ==> (draft[i] as int) < 0x1_0000
    ensures AcceptedName(draft).Some? <==> 1 <= |Trim(draft)| <= MaxRoomNameLength
  {
    var t := Trim(draft);
    var k := LeadingWhitespace(draft);
    assert forall i :: 0 <= i < |t| ==> t[i] == draft[k + i];
    LengthOfBasicPlane(t);
  }

  /** The new-room form: whether it is open, its draft, and the names it
      has handed to `onCreateRoom`. */
  class CreateRoomForm {
    var visible: bool
    var draft: string
    var submitted: seq<string>

    constructor ()
      ensures !visible && draft == "" && submitted == []
    {
      visible, draft, submitted := false, "", [];
    }

    /** The `+` button. */
    method Open()
      modifies this`visible
      ensures visible
    {
      visible := true;
    }

    /** Typing in the name field. */
    method EditDraft(value: string)
      modifies this`draft
      ensures draft == value
    {
      draft := value;
    }

    /** The Create button is disabled while the trimmed draft is empty; it
        only ever blocks drafts HandleCreate would reject anyway. */
    predicate CreateDisabled()
      reads this
      ensures CreateDisabled() ==> AcceptedName(draft).None?
    {
      Trim(draft) == []
    }

    /** `handleCreateRoom`: an accepted name is submitted, the draft cleared
        and the form closed; otherwise nothing changes. */
    method HandleCreate()
      modifies this`visible, this`draft, this`submitted
      ensures AcceptedName(old(draft)).Some? ==>
                submitted == old(submitted) + [Trim(old(draft))] && draft == "" && !visible
      ensures AcceptedName(old(draft)).None? ==>
                submitted == old(submitted) && draft == old(draft) && visible == old(visible)
    {
      var name := Trim(draft);
      if name != [] && Length(name) <= MaxRoomNameLength {
        submitted := submitted + [name];
        draft := "";
        visible := false;
      }
    }

    /** The Cancel button: closes the form and clears the draft. */
    method Cancel()
      modifies this`visible, this`draft
      ensures !visible && draft == ""
    {
      visible := false;
      draft := "";
    }
  }

  const UnknownColor: string := "#6c757d"
  const UnknownText: string := "\U{26AA} Unknown"

  /** `getStatusColor`: the fallback grey exactly for a string that is not
      one of the three statuses. */
  function StatusColor(status: string): (color: string)
    ensures color == UnknownColor <==>
              status != "connected" && status != "connecting" && status != "disconnected"
  {
    if status == "connected" then "#28a745"
    else if status == "connecting" then "#ffc107"
    else if status == "disconnected" then "#dc3545"
    else UnknownColor
  }

  /** `getStatusText`: the "Unknown" text exactly for a string that is not
      one of the three statuses. */
  function StatusText(status: string): (text: string)
    ensures text == UnknownText <==>
              status != "connected" && status != "connecting" && status != "disconnected"
  {
    if status == "connected" then "\U{1F7E2} Online"
    else if status == "connecting" then "\U{1F7E1} Connecting"
    else if status == "disconnected" then "\U{1F534} Offline"
    else UnknownText
  }

  /** The three statuses get three distinct colours and texts, none of
      them the fallback. */
  lemma StatusMappingsDistinct(a: Status, b: Status)
    ensures StatusColor(a.Name()) != UnknownColor && StatusText(a.Name()) != UnknownText
    ensures StatusColor(a.Name()) == StatusColor(b.Name()) <==> a == b
    ensures StatusText(a.Name()) == StatusText(b.Name()) <==> a == b
  {
  }

  /** Any other string maps to grey and "Unknown". */
  lemma OtherStatusIsUnknown(status: string)
    requires forall st: Status :: st.Name() != status
    ensures StatusColor(status) == UnknownColor && StatusText(status) == UnknownText
  {
    assert Connected.Name() != status;
    assert Connecting.Name() != status;
    assert Disconnected.Name() != status;
  }
}

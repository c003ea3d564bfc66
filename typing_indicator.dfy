/** The line under the message list that says who is typing. */
module TypingIndicator {
  import opened Types
  import opened Js

  /** The indicator's text, or None when the list is empty and the
      indicator renders nothing. One or two users are named in list order;
      three or more are only counted. */
  function TypingText(typingUsers: seq<string>): (r: Option<string>)
    ensures r.None? <==> typingUsers == []
    ensures |typingUsers| == 1 ==> r == Some(typingUsers[0] + " is typing")
    ensures |typingUsers| == 2 ==> r == Some(typingUsers[0] + " and " + typingUsers[1] + " are typing")
    ensures |typingUsers| >= 3 ==> r == Some(DecimalString(|typingUsers|) + " people are typing")
  {
    if |typingUsers| == 0 then None
    else if |typingUsers| == 1 then Some(typingUsers[0] + " is typing")
    else if |typingUsers| == 2 then Some(typingUsers[0] + " and " + typingUsers[1] + " are typing")
    else Some(DecimalString(|typingUsers|) + " people are typing")
  }

  /** With three or more users the text depends on their number only. */
  lemma NamesNobody(a: seq<string>, b: seq<string>)
    requires |a| == |b| >= 3
    ensures TypingText(a) == TypingText(b)
  {
  }

  /** With three or more users the text opens with the count, in decimal
      digits that read back as the number of users. */
  lemma CountReadsBack(typingUsers: seq<string>)
    requires |typingUsers| >= 3
    ensures var t := TypingText(typingUsers).value;
            exists k :: 0 < k < |t| && t[k..] == " people are typing"
                        && (forall i :: 0 <= i < k ==> IsDigit(t[i]))
                        && DecimalValue(t[..k]) == |typingUsers|
  {
    var d := DecimalString(|typingUsers|);
    var t := TypingText(typingUsers).value;
    DecimalRoundTrip(|typingUsers|);
    assert t[..|d|] == d;
    assert t[|d|..] == " people are typing";
  }
}

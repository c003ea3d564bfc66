/** How the message list lays out its rows: which messages are the user's
    own, which continue the previous author's run, and which show the
    author's name. */
module MessageList {
  import opened Types

  /** Two messages by the same author closer than this (five minutes) are
      drawn as one run. */
  const ConsecutiveWindowMs: int := 300000

  /** `isConsecutiveMessage`: same username and user id as the previous
      message, and a timestamp less than five minutes after it. The gap is
      not taken in absolute value, so a message stamped earlier than its
      predecessor also continues the run; an unparsable timestamp gives a
      NaN gap, which is never below the window. */
  predicate IsConsecutive(cur: Message, prev: Option<Message>)
    ensures prev.None? ==> !IsConsecutive(cur, prev)
    ensures IsConsecutive(cur, prev) ==>
              prev.value.username == cur.username && prev.value.userId == cur.userId
    ensures IsConsecutive(cur, prev) ==>
              cur.timestamp.Millis? && prev.value.timestamp.Millis?
              && cur.timestamp.ms < prev.value.timestamp.ms + ConsecutiveWindowMs
  {
    match prev
    case None => false
    case Some(p) =>
      && p.username == cur.username
      && p.userId == cur.userId
      && match (cur.timestamp, p.timestamp)
         case (Millis(c), Millis(q)) => c - q < ConsecutiveWindowMs
         case _ => false
  }

  /** A message is the user's own when its user id is the user's. */
  predicate IsOwn(m: Message, currentUser: User)
    ensures IsOwn(m, currentUser) ==> m.userId == currentUser.userId
    ensures m.userId == currentUser.userId ==> IsOwn(m, currentUser)
  {
    m.userId == currentUser.userId
  }

  /** The predecessor of the message at index `i`, if any. */
  function Previous(messages: seq<Message>, i: nat): (p: Option<Message>)
    requires i < |messages|
    ensures p.None? <==> i == 0
  {
    if i > 0 then Some(messages[i - 1]) else None
  }

  predicate ConsecutiveAt(messages: seq<Message>, i: nat)
    requires i < |messages|
  {
    IsConsecutive(messages[i], Previous(messages, i))
  }

  /** The author label is drawn above a message that is neither the user's
      own nor a continuation of the previous author's run. */
  predicate ShowsAuthor(messages: seq<Message>, i: nat, currentUser: User)
    requires i < |messages|
    ensures ShowsAuthor(messages, i, currentUser) ==> !IsOwn(messages[i], currentUser)
    ensures i == 0 || messages[i - 1].userId != messages[i].userId
              || messages[i - 1].username != messages[i].username ==>
              (ShowsAuthor(messages, i, currentUser) <==> !IsOwn(messages[i], currentUser))
  {
    !IsOwn(messages[i], currentUser) && !ConsecutiveAt(messages, i)
  }

  datatype Row = Row(message: Message, own: bool, consecutive: bool, showAuthor: bool)

  /** What the list renders: the welcome placeholder, or one row per
      message. */
  datatype View = Welcome | Rows(rows: seq<Row>)

  /** The rendered list: the welcome placeholder exactly when there are no
      messages, otherwise the messages in order with their flags. */
  function Render(messages: seq<Message>, currentUser: User): (v: View)
    ensures v.Welcome? <==> messages == []
    ensures v.Rows? ==> |v.rows| == |messages|
    ensures v.Rows? ==> forall i :: 0 <= i < |messages| ==>
              && v.rows[i].message == messages[i]
              && (v.rows[i].own <==> messages[i].userId == currentUser.userId)
              && (v.rows[i].consecutive <==> ConsecutiveAt(messages, i))
              && (v.rows[i].showAuthor <==> !v.rows[i].own && !v.rows[i].consecutive)
    ensures v.Rows? ==> !v.rows[0].consecutive
  {
    if messages == [] then Welcome
    else Rows(seq(|messages|, i requires 0 <= i < |messages| =>
                Row(messages[i], IsOwn(messages[i], currentUser),
                    ConsecutiveAt(messages, i), ShowsAuthor(messages, i, currentUser))))
  }

  /** Ownership looks at the user id only: renaming the message's author or
      the current user changes nothing. */
  lemma OwnIgnoresUsername(m: Message, currentUser: User, name1: string, name2: string)
    ensures IsOwn(m.(username := name1), currentUser.(username := name2)) == IsOwn(m, currentUser)
  {
  }

  /** The converse of IsConsecutive's contract: same author and a gap below
      five minutes, negative gaps included, make a continuation. */
  lemma ConsecutiveWhenClose(cur: Message, prev: Message)
    requires prev.username == cur.username && prev.userId == cur.userId
    requires cur.timestamp.Millis? && prev.timestamp.Millis?
    requires cur.timestamp.ms - prev.timestamp.ms < ConsecutiveWindowMs
    ensures IsConsecutive(cur, Some(prev))
  {
  }

  /** Every message of a run that starts at `i` has the author of the
      message at `i`, no label is drawn after the run's head, and the run
      spans less than five minutes per message. */
  lemma {:induction false} RunSharesAuthor(messages: seq<Message>, i: nat, j: nat, currentUser: User)
    requires i <= j < |messages|
    requires forall k :: i < k <= j ==> ConsecutiveAt(messages, k)
    ensures messages[j].username == messages[i].username
    ensures messages[j].userId == messages[i].userId
    ensures forall k :: i < k <= j ==> !ShowsAuthor(messages, k, currentUser)
    ensures i < j ==> messages[i].timestamp.Millis? && messages[j].timestamp.Millis?
                      && messages[j].timestamp.ms < messages[i].timestamp.ms + (j - i) * ConsecutiveWindowMs
  {
    if i < j {
      RunSharesAuthor(messages, i, j - 1, currentUser);
      assert ConsecutiveAt(messages, j);
    }
  }
}

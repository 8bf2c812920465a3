/** What the chat dialog and the messages page share: the message row, the
    ordered pair of participants, choosing the other participant, and the
    rules for sending what was typed. */
module Chat {
  import opened Text

  /** A row of `messages` as the chat views list it. */
  datatype Message = Message(id: string, senderId: string, content: string, createdAt: string, isRead: bool)

  /** The row a send inserts into `messages`. */
  datatype NewMessage = NewMessage(conversationId: string, senderId: string, content: string)

  /** `[a, b].sort()`: the two ids in string order, which is how a
      conversation's `participant_one` and `participant_two` are stored. */
  function ParticipantPair(a: string, b: string): (p: (string, string))
    ensures (p.0 == a && p.1 == b) || (p.0 == b && p.1 == a)
    ensures !StringLess(p.1, p.0)
  {
    StringLessTotal(a, b);
    if StringLess(b, a) then (b, a) else (a, b)
  }

  /** Either participant may open the chat: both orders give the same pair. */
  lemma ParticipantPairSymmetric(a: string, b: string)
    ensures ParticipantPair(a, b) == ParticipantPair(b, a)
  {
    StringLessTotal(a, b);
  }

  /** The participant of a conversation who is not the user:
      `participant_two` when the user is `participant_one`, otherwise
      `participant_one`. */
  function OtherParticipant(participantOne: string, participantTwo: string, user: string): (other: string)
    ensures participantOne == user ==> other == participantTwo
    ensures participantOne != user ==> other == participantOne
  {
    if participantOne == user then participantTwo else participantOne
  }

  /** In a conversation the chat dialog created for a user and a recipient,
      the messages page shows the user the recipient, whichever of the two
      ids sorts first. */
  lemma OtherOfCreatedPair(user: string, recipient: string)
    ensures OtherParticipant(ParticipantPair(user, recipient).0, ParticipantPair(user, recipient).1, user)
            == recipient
  {
  }

  /** What "Send" inserts: nothing while the input is blank or no
      conversation or user is known; otherwise the input trimmed, from the
      user, into the conversation. */
  function Send(input: string, conversationId: Option<string>, user: Option<string>): (m: Option<NewMessage>)
    ensures m.None? <==> IsBlank(input) || conversationId.None? || user.None?
    ensures m.Some? ==>
      m.value.conversationId == conversationId.value && m.value.senderId == user.value &&
      m.value.content == Trim(input) && !IsBlank(m.value.content)
  {
    if IsBlank(input) || conversationId.None? || user.None? then None
    else
      TrimIdempotent(input);
      Some(NewMessage(conversationId.value, user.value, Trim(input)))
  }

  /** The input box after "Send": untouched when nothing was sent, cleared
      when the message went through, and holding the trimmed text again when
      the insert failed. */
  function InputAfterSend(input: string, sent: Option<NewMessage>, failed: bool): (after: string)
    ensures sent.None? ==> after == input
    ensures sent.Some? && !failed ==> after == ""
    ensures sent.Some? && failed ==> after == sent.value.content
  {
    if sent.None? then input else if failed then sent.value.content else ""
  }

  /** A failed send restores text that sends the very same message when
      tried again. */
  lemma RetryResends(input: string, conversationId: Option<string>, user: Option<string>)
    requires Send(input, conversationId, user).Some?
    ensures Send(InputAfterSend(input, Send(input, conversationId, user), true), conversationId, user)
            == Send(input, conversationId, user)
  {
    TrimIdempotent(input);
  }

  /** Enter sends, Shift+Enter does not, and no other key does. */
  function SendsOnKey(key: string, shiftKey: bool): (sends: bool)
    ensures sends <==> key == "Enter" && !shiftKey
  {
    key == "Enter" && !shiftKey
  }
}

/** The messages page: the user's conversations with the other participant
    and the last message of each, the open conversation, and sending. */
module Messages {
  import opened Text
  import opened Chat

  /** A row of `conversations`. */
  datatype Conversation = Conversation(id: string, participantOne: string, participantTwo: string)

  /** The other user as the list shows them. */
  datatype OtherUser = OtherUser(id: string, fullName: string, avatarUrl: Option<string>)

  /** A conversation in the list, with the other user and the preview line. */
  datatype Summary = Summary(conversation: Conversation, otherUser: OtherUser, lastMessage: string)

  const UnknownUser := "Unknown User"
  const NoMessagesYet := "No messages yet"

  /** One entry of the list. `profile` is what the profile query returned for
      the other participant and `lastContent` the content of the latest
      message, each `None` when nothing came back. A missing profile shows as
      "Unknown User" under the other participant's id, and a missing or empty
      last message as "No messages yet". */
  function Summarize(c: Conversation, user: string, profile: Option<OtherUser>,
                     lastContent: Option<string>): (s: Summary)
    ensures s.conversation == c
    ensures profile.Some? ==> s.otherUser == profile.value
    ensures profile.None? ==>
      s.otherUser == OtherUser(OtherParticipant(c.participantOne, c.participantTwo, user), UnknownUser, None)
    ensures lastContent.Some? && lastContent.value != "" ==> s.lastMessage == lastContent.value
    ensures lastContent.None? || lastContent.value == "" ==> s.lastMessage == NoMessagesYet
    ensures s.lastMessage != ""
  {
    var otherId := OtherParticipant(c.participantOne, c.participantTwo, user);
    Summary(c,
            if profile.Some? then profile.value else OtherUser(otherId, UnknownUser, None),
            if lastContent.Some? && lastContent.value != "" then lastContent.value else NoMessagesYet)
  }

  /** `loadConversations`' list: every conversation summarised in the order
      returned, `profileOf` and `lastOf` standing for the per-conversation
      profile and last-message queries. */
  function Summaries(cs: seq<Conversation>, user: string, profileOf: string -> Option<OtherUser>,
                     lastOf: string -> Option<string>): (r: seq<Summary>)
    ensures |r| == |cs|
    ensures forall i :: 0 <= i < |cs| ==>
      r[i] == Summarize(cs[i], user, profileOf(OtherParticipant(cs[i].participantOne, cs[i].participantTwo, user)),
                        lastOf(cs[i].id))
  {
    if cs == [] then []
    else
      var c := cs[0];
      [Summarize(c, user, profileOf(OtherParticipant(c.participantOne, c.participantTwo, user)), lastOf(c.id))] +
      Summaries(cs[1..], user, profileOf, lastOf)
  }

  /** In a conversation of the user with someone else, the list shows the
      someone else: under their own profile when it is found, or under
      their id when it is not. */
  lemma SummaryShowsOtherUser(cs: seq<Conversation>, user: string, profileOf: string -> Option<OtherUser>,
                              lastOf: string -> Option<string>, i: int, other: string)
    requires 0 <= i < |cs|
    requires (cs[i].participantOne == user && cs[i].participantTwo == other) ||
             (cs[i].participantOne == other && cs[i].participantTwo == user)
    requires other != user
    requires profileOf(other).Some? ==> profileOf(other).value.id == other
    ensures Summaries(cs, user, profileOf, lastOf)[i].otherUser.id == other
    ensures Summaries(cs, user, profileOf, lastOf)[i].lastMessage != ""
  {
  }

  /** The page's state. */
  class Page {
    var conversations: seq<Summary>
    var selected: Option<Summary>
    var messages: seq<Message>
    var newMessage: string

    constructor ()
      ensures conversations == [] && selected.None? && messages == [] && newMessage == ""
    {
      conversations := [];
      selected := None;
      messages := [];
      newMessage := "";
    }

    /** `loadConversations`, which does nothing without a signed-in user:
        `rows` answers the conversations query, `None` when it failed, which
        leaves the list as it was. */
    method LoadConversations(user: Option<string>, rows: Option<seq<Conversation>>,
                             profileOf: string -> Option<OtherUser>, lastOf: string -> Option<string>)
      modifies this`conversations
      ensures user.None? || rows.None? ==> conversations == old(conversations)
      ensures user.Some? && rows.Some? ==> conversations == Summaries(rows.value, user.value, profileOf, lastOf)
    {
      if user.Some? && rows.Some? {
        conversations := Summaries(rows.value, user.value, profileOf, lastOf);
      }
    }

    /** Opening a conversation: `loaded` answers its messages query; when
        that failed the previous messages stay. */
    method Select(s: Summary, loaded: Option<seq<Message>>)
      modifies this`selected, this`messages
      ensures selected == Some(s)
      ensures messages == if loaded.Some? then loaded.value else old(messages)
    {
      selected := Some(s);
      if loaded.Some? {
        messages := loaded.value;
      }
    }

    /** The back arrow: no conversation is open; its messages stay loaded. */
    method Deselect()
      modifies this`selected
      ensures selected.None?
    {
      selected := None;
    }

    /** `sendMessage` for the user, if any; `failed` says whether the insert
        was refused. */
    method SendMessage(user: Option<string>, failed: bool) returns (sent: Option<NewMessage>)
      modifies this`newMessage
      ensures sent == Send(old(newMessage), if selected.Some? then Some(selected.value.conversation.id) else None, user)
      ensures newMessage == InputAfterSend(old(newMessage), sent, failed)
    {
      var conversationId := if selected.Some? then Some(selected.value.conversation.id) else None;
      sent := Send(newMessage, conversationId, user);
      newMessage := InputAfterSend(newMessage, sent, failed);
    }

    /** A message inserted into the open conversation is added at the end. */
    method OnInsert(m: Message)
      modifies this`messages
      ensures messages == old(messages) + [m]
    {
      messages := messages + [m];
    }
  }
}

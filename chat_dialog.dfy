/** The "Message" dialog on a teacher's or performer's page: finds or
    starts the conversation with the recipient, lists its messages and sends
    new ones. */
module ChatDialog {
  import opened Text
  import opened Chat

  /** The conversation the lookup or else the insert gives: the one found,
      or when none exists the one created; none when either query failed. */
  function Resolved(found: Option<Option<string>>, created: Option<string>): (id: Option<string>)
    ensures found.None? ==> id.None?
    ensures found.Some? && found.value.Some? ==> id == found.value
    ensures found == Some(None) ==> id == created
  {
    if found.None? then None else if found.value.Some? then found.value else created
  }

  /** The dialog's state. */
  class Dialog {
    const recipientId: string
    var conversationId: Option<string>
    var messages: seq<Message>
    var newMessage: string
    var loading: bool

    constructor (recipientId: string)
      ensures this.recipientId == recipientId
      ensures conversationId.None? && messages == [] && newMessage == "" && !loading
    {
      this.recipientId := recipientId;
      conversationId := None;
      messages := [];
      newMessage := "";
      loading := false;
    }

    /** `loadOrCreateConversation`, which does nothing without a signed-in
        `user`. The answers of
        the database come in as parameters: `found` is the lookup of the
        sorted pair (`None` when the lookup failed, `Some(None)` when no
        conversation exists), `created` the id of a new conversation (`None`
        when the insert failed), `loaded` the conversation's messages (`None`
        when that query failed). `inserted` is the pair of a conversation
        created by this call, if one was. */
    method LoadOrCreate(user: Option<string>, found: Option<Option<string>>, created: Option<string>,
                        loaded: Option<seq<Message>>) returns (inserted: Option<(string, string)>)
      modifies this`conversationId, this`messages, this`loading
      ensures user.None? ==>
        inserted.None? && conversationId == old(conversationId) && messages == old(messages) &&
        loading == old(loading)
      ensures user.Some? ==> !loading
      ensures inserted.Some? <==> user.Some? && found == Some(None)
      ensures inserted.Some? ==> inserted.value == ParticipantPair(user.value, recipientId)
      ensures user.Some? && Resolved(found, created).None? ==>
        conversationId == old(conversationId) && messages == old(messages)
      ensures user.Some? && Resolved(found, created).Some? ==>
        conversationId == Resolved(found, created) &&
        messages == (if loaded.Some? then loaded.value else old(messages))
    {
      inserted := None;
      if user.None? {
        return;
      }
      loading := true;
      var pair := ParticipantPair(user.value, recipientId);
      if found.None? {
        loading := false;
        return;
      }
      var convId := found.value;
      if convId.None? {
        inserted := Some(pair);
        if created.None? {
          loading := false;
          return;
        }
        convId := created;
      }
      conversationId := convId;
      if loaded.Some? {
        messages := loaded.value;
      }
      loading := false;
    }

    /** `sendMessage` for the user, if any; `failed` says whether the insert
        was refused. */
    method SendMessage(user: Option<string>, failed: bool) returns (sent: Option<NewMessage>)
      modifies this`newMessage
      ensures sent == Send(old(newMessage), conversationId, user)
      ensures newMessage == InputAfterSend(old(newMessage), sent, failed)
    {
      sent := Send(newMessage, conversationId, user);
      newMessage := InputAfterSend(newMessage, sent, failed);
    }

    /** A message inserted into the open conversation is added at the end. */
    method OnInsert(m: Message)
      modifies this`messages
      ensures messages == old(messages) + [m]
    {
      messages := messages + [m];
    }
  }
}

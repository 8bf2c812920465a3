/** The navigation bar's unread-message counter and the badge on the
    messages icon. */
module Navbar {
  import opened Text

  /** The badge text: nothing while no message is unread, the count itself
      up to nine, and "9+" above. */
  function BadgeLabel(count: int): (shown: Option<string>)
    ensures shown.None? <==> count <= 0
    ensures 1 <= count <= 9 ==> shown == Some(Decimal(count)) && |shown.value| == 1
    ensures count > 9 ==> shown == Some("9+")
  {
    if count <= 0 then None
    else if count > 9 then Some("9+")
    else Some(Decimal(count))
  }

  /** A badge of a count from one to nine reads back as that count, and no
      badge is longer than two characters. */
  lemma BadgeLabelReadsBack(count: int)
    requires count > 0
    ensures BadgeLabel(count).Some? && |BadgeLabel(count).value| <= 2
    ensures count <= 9 ==> ParseInt(BadgeLabel(count).value) == Some(count)
  {
    if count <= 9 {
      DecimalRoundTrip(count);
    }
  }

  /** Two counts above nine show the same badge; two different counts up to
      nine never do. */
  lemma BadgeLabelDistinguishes(a: int, b: int)
    requires 0 < a && 0 < b
    ensures a > 9 && b > 9 ==> BadgeLabel(a) == BadgeLabel(b)
    ensures a <= 9 && b <= 9 && a != b ==> BadgeLabel(a) != BadgeLabel(b)
  {
    if a <= 9 && b <= 9 && a != b {
      BadgeLabelReadsBack(a);
      BadgeLabelReadsBack(b);
    }
  }

  /** The counter, with the signed-in user it counts for. */
  class UnreadCounter {
    var user: Option<string>
    var count: int

    ghost predicate Valid()
      reads this
    {
      count >= 0 && (user.None? ==> count == 0)
    }

    constructor ()
      ensures Valid() && user.None? && count == 0
    {
      user := None;
      count := 0;
    }

    /** The effect that runs when the user changes: without a user the count
        drops to 0; with one the count stays until the first query answers. */
    method SetUser(u: Option<string>)
      requires Valid()
      modifies this
      ensures Valid() && user == u
      ensures u.None? ==> count == 0
      ensures u.Some? ==> count == old(count)
    {
      user := u;
      if u.None? {
        count := 0;
      }
    }

    /** `fetchUnreadCount`, run once the user is known and again whenever a
        message is marked read: `queried` is the exact count the query
        returned, `None` when it came back null. The count is replaced, with
        null read as 0. */
    method FetchUnreadCount(queried: Option<nat>)
      requires Valid() && user.Some?
      modifies this`count
      ensures Valid()
      ensures count == OrElse(queried, 0)
    {
      count := OrElse(queried, 0);
    }

    /** A message was inserted: `inConversation` says whether the lookup of
        its conversation among the user's found it. Only a message from
        someone else in one of the user's conversations adds one. */
    method OnInsert(senderId: string, inConversation: bool)
      requires Valid() && user.Some?
      modifies this`count
      ensures Valid()
      ensures count == old(count) + (if senderId != user.value && inConversation then 1 else 0)
    {
      if senderId != user.value {
        if inConversation {
          count := count + 1;
        }
      }
    }
  }
}

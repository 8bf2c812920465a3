/** The `lessons` table as the dashboards see it, and the partitions of a
    lesson list that the teacher, student and parent dashboards share. */
module Lessons {
  import opened Text
  import opened Calendar
  import opened Lists

  const Pending := "pending"
  const Confirmed := "confirmed"
  const Completed := "completed"
  const Cancelled := "cancelled"

  /** A row of `lessons` with the columns the pages read. A null `status` is
      the empty string, which every status comparison the pages make
      (including `status || 'pending'`) treats exactly as it treats null. */
  datatype Lesson = Lesson(
    id: string,
    studentId: string,
    teacherId: string,
    instrumentId: string,
    childId: Option<string>,
    scheduledAt: DateTime,
    durationMinutes: int,
    price: Option<real>,
    status: string,
    lessonType: string,
    meetingLink: Option<string>)

  /** The variants of the status badge on a lesson card. */
  datatype BadgeVariant = Default | Secondary | Destructive | Outline

  /** `new Date(l.scheduled_at) > now && l.status !== 'cancelled'`. */
  function IsUpcoming(l: Lesson, now: DateTime): (b: bool)
    ensures l.status == Cancelled ==> !b
    ensures b ==> l.scheduledAt != now && !Earlier(l.scheduledAt, now)
  {
    EarlierTotal(now, l.scheduledAt);
    Earlier(now, l.scheduledAt) && l.status != Cancelled
  }

  /** `new Date(l.scheduled_at) <= now || l.status === 'completed'`. */
  function IsPast(l: Lesson, now: DateTime): (b: bool)
    ensures b <==> l.scheduledAt == now || Earlier(l.scheduledAt, now) || l.status == Completed
  {
    EarlierTotal(now, l.scheduledAt);
    !Earlier(now, l.scheduledAt) || l.status == Completed
  }

  /** The lessons still to come that were not cancelled, in list order. */
  function Upcoming(ls: seq<Lesson>, now: DateTime): (r: seq<Lesson>)
    ensures forall l :: l in r <==> l in ls && IsUpcoming(l, now)
    ensures IsSubsequence(r, ls)
  {
    Filter(ls, l => IsUpcoming(l, now))
  }

  /** The lessons at or before `now`, and the completed ones, in list order. */
  function Past(ls: seq<Lesson>, now: DateTime): (r: seq<Lesson>)
    ensures forall l :: l in r <==> l in ls && IsPast(l, now)
    ensures IsSubsequence(r, ls)
  {
    Filter(ls, l => IsPast(l, now))
  }

  /** The lessons whose status is exactly `pending`, in list order. */
  function PendingLessons(ls: seq<Lesson>): (r: seq<Lesson>)
    ensures forall l :: l in r <==> l in ls && l.status == Pending
    ensures IsSubsequence(r, ls)
  {
    Filter(ls, (l: Lesson) => l.status == Pending)
  }

  /** The lessons whose status is exactly `completed`, in list order. */
  function CompletedLessons(ls: seq<Lesson>): (r: seq<Lesson>)
    ensures forall l :: l in r <==> l in ls && l.status == Completed
    ensures IsSubsequence(r, ls)
  {
    Filter(ls, (l: Lesson) => l.status == Completed)
  }

  /** A lesson is in neither the upcoming nor the past list exactly when it
      lies in the future and was cancelled; a future completed lesson is in both. */
  lemma UpcomingPastOverlap(ls: seq<Lesson>, now: DateTime, l: Lesson)
    requires l in ls
    ensures (l !in Upcoming(ls, now) && l !in Past(ls, now)) <==>
            (Earlier(now, l.scheduledAt) && l.status == Cancelled)
    ensures (l in Upcoming(ls, now) && l in Past(ls, now)) <==>
            (Earlier(now, l.scheduledAt) && l.status == Completed)
  {
  }
}

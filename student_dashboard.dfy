/** The student's dashboard: the figures at the top, the upcoming and past
    tabs, and the status badges on the lesson cards. */
module StudentDashboard {
  import opened Text
  import opened Calendar
  import opened Lists
  import opened Lessons

  /** The four figures at the top of the page. */
  datatype Stats = Stats(totalLessons: int, upcomingLessons: int, completedLessons: int, totalSpent: real)

  const NoStats := Stats(0, 0, 0, 0.0)

  /** `l.price || 0`. */
  function PriceOf(l: Lesson): (p: real)
    ensures l.price.None? ==> p == 0.0
    ensures l.price.Some? ==> p == l.price.value
  {
    OrElse(l.price, 0.0)
  }

  /** `ls.reduce((sum, l) => sum + (l.price || 0), 0)`: the prices added from
      the first lesson to the last, a missing price counting as 0. */
  function TotalSpent(ls: seq<Lesson>): (total: real)
    ensures ls != [] ==> total == PriceOf(ls[0]) + TotalSpent(ls[1..])
  {
    if ls == [] then 0.0
    else
      assert |ls| > 1 ==> ls[1..][..|ls| - 2] == ls[..|ls| - 1][1..];
      TotalSpent(ls[..|ls| - 1]) + PriceOf(ls[|ls| - 1])
  }

  /** The total of two lists one after the other is the sum of their totals. */
  lemma {:induction false} TotalSpentConcat(a: seq<Lesson>, b: seq<Lesson>)
    ensures TotalSpent(a + b) == TotalSpent(a) + TotalSpent(b)
    decreases |b|
  {
    if b == [] {
      assert a + b == a;
    } else {
      var c := b[..|b| - 1];
      assert (a + b)[..|a + b| - 1] == a + c;
      assert (a + b)[|a + b| - 1] == b[|b| - 1];
      TotalSpentConcat(a, c);
    }
  }

  /** With no negative price the total is never negative, and it is at least
      the price of any one lesson. */
  lemma {:induction false} TotalSpentBounds(ls: seq<Lesson>, i: int)
    requires forall l :: l in ls ==> PriceOf(l) >= 0.0
    requires 0 <= i < |ls|
    ensures TotalSpent(ls) >= PriceOf(ls[i]) >= 0.0
    decreases |ls|
  {
    var init := ls[..|ls| - 1];
    assert forall l :: l in init ==> l in ls;
    if i < |ls| - 1 {
      assert ls[i] == init[i];
      TotalSpentBounds(init, i);
    } else if init != [] {
      TotalSpentBounds(init, 0);
    }
  }

  /** The figures `fetchLessons` stores: the number of lessons, of those still
      to come and not cancelled, of those completed, and the money spent. */
  function ComputeStats(ls: seq<Lesson>, now: DateTime): (s: Stats)
    ensures s.totalLessons == |ls|
    ensures s.upcomingLessons == |Upcoming(ls, now)| <= |ls|
    ensures s.completedLessons == |CompletedLessons(ls)| <= |ls|
    ensures s.totalSpent == TotalSpent(ls)
  {
    Stats(|ls|, |Upcoming(ls, now)|, |CompletedLessons(ls)|, TotalSpent(ls))
  }

  /** Each lesson adds one to the total, one to the upcoming count when it is
      still to come and not cancelled, one to the completed count when it is
      completed, and its price to the money spent. */
  lemma ComputeStatsStep(ls: seq<Lesson>, l: Lesson, now: DateTime)
    ensures ComputeStats(ls + [l], now) == Stats(
      ComputeStats(ls, now).totalLessons + 1,
      ComputeStats(ls, now).upcomingLessons + (if IsUpcoming(l, now) then 1 else 0),
      ComputeStats(ls, now).completedLessons + (if l.status == Completed then 1 else 0),
      ComputeStats(ls, now).totalSpent + PriceOf(l))
  {
    FilterConcat(ls, [l], l => IsUpcoming(l, now));
    FilterConcat(ls, [l], (l: Lesson) => l.status == Completed);
    assert (ls + [l])[..|ls + [l]| - 1] == ls;
  }

  /** `getStatusBadge`: pending is secondary, confirmed default, completed
      outlined and cancelled destructive; any other status falls back to
      secondary. */
  function StatusBadge(status: string): (v: BadgeVariant)
    ensures v == Default <==> status == Confirmed
    ensures v == Outline <==> status == Completed
    ensures v == Destructive <==> status == Cancelled
    ensures v == Secondary <==> status !in {Confirmed, Completed, Cancelled}
  {
    if status == Pending then Secondary
    else if status == Confirmed then Default
    else if status == Completed then Outline
    else if status == Cancelled then Destructive
    else Secondary
  }

  /** The badge on a card: `status || fallback`, where the upcoming tab falls
      back to `pending` and the past tab to `completed`. */
  function CardBadge(l: Lesson, fallback: string): (v: BadgeVariant)
    ensures l.status != "" ==> v == StatusBadge(l.status)
    ensures l.status == "" ==> v == StatusBadge(fallback)
  {
    StatusBadge(if l.status == "" then fallback else l.status)
  }

  /** A lesson without a status shows as pending among the upcoming lessons
      and as completed among the past ones. */
  lemma MissingStatusBadges(l: Lesson)
    requires l.status == ""
    ensures CardBadge(l, Pending) == Secondary && CardBadge(l, Completed) == Outline
  {
  }

  /** The "Join" button shows exactly when the lesson has a non-empty meeting
      link and is confirmed. */
  function ShowsJoin(l: Lesson): (r: bool)
    ensures r <==> l.meetingLink.Some? && l.meetingLink.value != "" && l.status == Confirmed
  {
    OrElse(l.meetingLink, "") != "" && l.status == Confirmed
  }

  /** A lesson with a join button carries the badge of a confirmed lesson. */
  lemma JoinableIsConfirmed(l: Lesson)
    requires ShowsJoin(l)
    ensures CardBadge(l, Pending) == Default
  {
  }

  /** The page's state. */
  class Dashboard {
    var lessons: seq<Lesson>
    var stats: Stats
    var loading: bool

    constructor ()
      ensures lessons == [] && stats == NoStats && loading
    {
      lessons := [];
      stats := NoStats;
      loading := true;
    }

    /** `fetchLessons`: `rows` is the answer to the lessons query, `None` when
        it failed. On success the lessons and the figures are replaced; on a
        failure both stay as they were. The spinner stops either way. */
    method FetchLessons(rows: Option<seq<Lesson>>, now: DateTime)
      modifies this
      ensures rows.Some? ==> lessons == rows.value && stats == ComputeStats(rows.value, now)
      ensures rows.None? ==> lessons == old(lessons) && stats == old(stats)
      ensures !loading
    {
      if rows.Some? {
        lessons := rows.value;
        stats := ComputeStats(rows.value, now);
      }
      loading := false;
    }
  }
}

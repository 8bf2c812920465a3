/** Dates and times as the pages compare them. A JavaScript `Date` is read
    here through its local fields; parsing, time zones and formatting are not
    part of this model. */
module Calendar {
  import Ordering

  /** A local date and time, field by field: `getFullYear()`,
      `getMonth() + 1`, `getDate()`, `getHours()`, `getMinutes()`,
      `getSeconds()`, `getMilliseconds()`. */
  datatype DateTime = DateTime(
    year: int, month: int, day: int,
    hour: int, minute: int, second: int, millisecond: int)

  function Fields(d: DateTime): seq<int> {
    [d.year, d.month, d.day, d.hour, d.minute, d.second, d.millisecond]
  }

  /** `a < b` on two `Date`s: `a` is the earlier instant. With every field in
      its usual range, comparing fields from the year down compares instants. */
  predicate Earlier(a: DateTime, b: DateTime) {
    Ordering.LexLess(Fields(a), Fields(b))
  }

  /** Two instants are equal or one is strictly earlier, and never both ways. */
  lemma EarlierTotal(a: DateTime, b: DateTime)
    ensures a == b || Earlier(a, b) || Earlier(b, a)
    ensures !(Earlier(a, b) && Earlier(b, a))
    ensures !Earlier(a, a)
  {
    Ordering.LexLessTotal(Fields(a), Fields(b));
    Ordering.LexLessAsymmetric(Fields(a), Fields(b));
    Ordering.LexLessIrreflexive(Fields(a));
    if Fields(a) == Fields(b) {
      assert Fields(a)[0] == Fields(b)[0] && Fields(a)[1] == Fields(b)[1] && Fields(a)[2] == Fields(b)[2];
      assert Fields(a)[3] == Fields(b)[3] && Fields(a)[4] == Fields(b)[4];
      assert Fields(a)[5] == Fields(b)[5] && Fields(a)[6] == Fields(b)[6];
    }
  }

  lemma EarlierTransitive(a: DateTime, b: DateTime, c: DateTime)
    requires Earlier(a, b) && Earlier(b, c)
    ensures Earlier(a, c)
  {
    Ordering.LexLessTransitive(Fields(a), Fields(b), Fields(c));
  }

  /** The date `d` with its time of day set by `setHours(hour, minute, 0, 0)`
      (for an hour and minute within range, so that nothing rolls over). */
  function AtTime(d: DateTime, hour: int, minute: int): (r: DateTime)
    ensures (r.year, r.month, r.day) == (d.year, d.month, d.day)
    ensures (r.hour, r.minute, r.second, r.millisecond) == (hour, minute, 0, 0)
  {
    d.(hour := hour, minute := minute, second := 0, millisecond := 0)
  }

  predicate IsMidnight(d: DateTime) {
    d.hour == 0 && d.minute == 0 && d.second == 0 && d.millisecond == 0
  }

  /** The time-of-day fields hold no negative value. */
  predicate TimeNonNegative(d: DateTime) {
    d.hour >= 0 && d.minute >= 0 && d.second >= 0 && d.millisecond >= 0
  }

  /** On one calendar day, midnight is earlier than every other time. */
  lemma MidnightFirst(m: DateTime, t: DateTime)
    requires IsMidnight(m) && Day(m) == Day(t)
    requires TimeNonNegative(t) && !IsMidnight(t)
    ensures Earlier(m, t)
  {
    var p := [m.year, m.month, m.day];
    var tt := [t.hour, t.minute, t.second, t.millisecond];
    assert Fields(m) == p + seq(4, _ => 0);
    assert Fields(t) == p + tt;
    assert tt[0] != 0 || tt[1] != 0 || tt[2] != 0 || tt[3] != 0;
    Ordering.ZerosFirst(tt);
    Ordering.LexLessCommonPrefix(p, seq(4, _ => 0), tt);
  }

  /** `format(d, 'yyyy-MM-dd')`: the calendar day alone. */
  function Day(d: DateTime): (int, int, int) {
    (d.year, d.month, d.day)
  }
}

/** A teacher's public page and its lesson booking form. */
module TeacherDetail {
  import opened Text
  import opened Calendar
  import opened Lessons

  /** The durations offered, in minutes, and the one preselected. */
  const Durations: seq<int> := [30, 60, 90, 120]
  const DefaultDuration := 60

  /** The start times offered, on the hour from nine to twenty. */
  const TimeSlots: seq<string> := [
    "09:00", "10:00", "11:00", "12:00", "13:00", "14:00",
    "15:00", "16:00", "17:00", "18:00", "19:00", "20:00"]

  /** `teacher.hourly_rate * (duration / 60)`: the hourly rate pro rata. */
  function LessonPrice(hourlyRate: int, durationMinutes: int): (price: real)
    ensures price * 60.0 == hourlyRate as real * durationMinutes as real
  {
    hourlyRate as real * (durationMinutes as real / 60.0)
  }

  /** The four offered durations cost a half, one, one and a half and two
      hours at the teacher's rate; the preselected one costs one hour. */
  lemma OfferedDurationPrices(hourlyRate: int)
    ensures LessonPrice(hourlyRate, Durations[0]) == hourlyRate as real * 0.5
    ensures LessonPrice(hourlyRate, Durations[1]) == hourlyRate as real
    ensures LessonPrice(hourlyRate, Durations[2]) == hourlyRate as real * 1.5
    ensures LessonPrice(hourlyRate, Durations[3]) == hourlyRate as real * 2.0
    ensures DefaultDuration in Durations
  {
  }

  /** A longer lesson never costs less at a non-negative rate. */
  lemma PriceMonotone(hourlyRate: int, d1: int, d2: int)
    requires 0 <= hourlyRate && d1 <= d2
    ensures LessonPrice(hourlyRate, d1) <= LessonPrice(hourlyRate, d2)
  {
    var r := hourlyRate as real;
    assert r * (d2 as real - d1 as real) >= 0.0;
  }

  /** `const [hours, minutes] = slot.split(':')` read with `parseInt`: the
      hour and minute, or `None` when either is `NaN` (a missing piece reads
      as `undefined`, which parses to `NaN`). */
  function SlotTime(slot: string): (r: Option<(int, int)>)
    ensures r.Some? <==> ParseInt(Split(slot, ':')[0]).Some? && |Split(slot, ':')| > 1 &&
                         ParseInt(Split(slot, ':')[1]).Some?
    ensures r.Some? ==> Some(r.value.0) == ParseInt(Split(slot, ':')[0]) &&
                        Some(r.value.1) == ParseInt(Split(slot, ':')[1])
  {
    var parts := Split(slot, ':');
    var h := ParseInt(parts[0]);
    var m := if |parts| > 1 then ParseInt(parts[1]) else None;
    if h.Some? && m.Some? then Some((h.value, m.value)) else None
  }

  /** Splitting a slot of two characters, a colon and "00" at the colon. */
  lemma SplitSlot(a: char, b: char)
    requires a != ':' && b != ':'
    ensures Split([a, b, ':', '0', '0'], ':') == [[a, b], "00"]
  {
    assert Split("0", ':') == ["0"] by {
      assert "0"[1..] == [] && Split([], ':') == [""];
      assert ['0'] + "" == "0" && [""][1..] == [];
    }
    assert Split("00", ':') == ["00"] by {
      assert "00"[1..] == "0" && ['0'] + "0" == "00";
      assert ["0"][1..] == [];
    }
    assert Split(":00", ':') == ["", "00"] by {
      assert ":00"[1..] == "00";
    }
    assert Split([b, ':', '0', '0'], ':') == [[b], "00"] by {
      assert [b, ':', '0', '0'][1..] == ":00";
      assert [b] + "" == [b] && ["", "00"][1..] == ["00"];
    }
    assert [a, b, ':', '0', '0'][1..] == [b, ':', '0', '0'];
    assert [a] + [b] == [a, b] && [[b], "00"][1..] == ["00"];
  }

  /** Two decimal digits parse to the number they denote, and "00" to zero. */
  lemma ParseTwoDigits(a: char, b: char)
    requires IsDecimalDigit(a) && IsDecimalDigit(b)
    ensures ParseInt([a, b]) == Some(DigitValue(a) * 10 + DigitValue(b))
    ensures ParseInt("00") == Some(0)
  {
    ParseDigits([a, b]);
    assert [a, b][..1] == [a];
    assert ValueOf([a], 10) == DigitValue(a) by {
      assert [a][..0] == [];
    }
    ParseDigits("00");
    assert "00"[..1] == "0" && "0"[..0] == [];
  }

  /** A slot of two digits, a colon and "00" reads as that whole hour. */
  lemma HourSlot(a: char, b: char)
    requires IsDecimalDigit(a) && IsDecimalDigit(b)
    ensures SlotTime([a, b, ':', '0', '0']) == Some((DigitValue(a) * 10 + DigitValue(b), 0))
  {
    SplitSlot(a, b);
    ParseTwoDigits(a, b);
  }

  /** The slots from `lo` to `hi` are two digits, a colon and "00". */
  lemma SlotShapes(lo: int, hi: int)
    requires 0 <= lo <= hi < |TimeSlots| && hi - lo < 4
    ensures forall i :: lo <= i <= hi ==>
      TimeSlots[i] == [TimeSlots[i][0], TimeSlots[i][1], ':', '0', '0'] &&
      IsDecimalDigit(TimeSlots[i][0]) && IsDecimalDigit(TimeSlots[i][1]) &&
      DigitValue(TimeSlots[i][0]) * 10 + DigitValue(TimeSlots[i][1]) == 9 + i
  {
  }

  /** Every offered slot reads as the hour it shows, on the minute. */
  lemma SlotsAreWholeHours()
    ensures forall i :: 0 <= i < |TimeSlots| ==> SlotTime(TimeSlots[i]) == Some((9 + i, 0))
  {
    SlotShapes(0, 3);
    SlotShapes(4, 7);
    SlotShapes(8, 11);
    forall i | 0 <= i < |TimeSlots|
      ensures SlotTime(TimeSlots[i]) == Some((9 + i, 0))
    {
      HourSlot(TimeSlots[i][0], TimeSlots[i][1]);
    }
  }

  /** The start of the lesson: the chosen day at the slot's hour and minute,
      or `None` when the slot does not parse (the date is then invalid and
      the booking throws before anything is written). */
  function ScheduledAt(date: DateTime, slot: string): (r: Option<DateTime>)
    ensures r.Some? <==> SlotTime(slot).Some?
    ensures r.Some? ==> r.value == AtTime(date, SlotTime(slot).value.0, SlotTime(slot).value.1)
  {
    match SlotTime(slot)
    case None => None
    case Some((h, m)) => Some(AtTime(date, h, m))
  }

  /** The picker offers a day (given as its midnight) unless it lies before now. */
  function Selectable(day: DateTime, now: DateTime): (b: bool)
    ensures b <==> day == now || Earlier(now, day)
  {
    EarlierTotal(day, now);
    !Earlier(day, now)
  }

  /** Today itself is not selectable once its midnight has passed. */
  lemma TodayNotSelectable(today: DateTime, now: DateTime)
    requires IsMidnight(today) && Day(today) == Day(now)
    requires TimeNonNegative(now) && !IsMidnight(now)
    ensures !Selectable(today, now)
  {
    MidnightFirst(today, now);
  }

  /** The lesson types the select offers: online and in person, each only
      when the teacher offers it. */
  function LessonTypeChoices(isOnline: Option<bool>, isInPerson: Option<bool>): (r: seq<string>)
    ensures "online" in r <==> isOnline == Some(true)
    ensures "in_person" in r <==> isInPerson == Some(true)
    ensures forall t :: t in r ==> t == "online" || t == "in_person"
  {
    (if isOnline == Some(true) then ["online"] else [])
    + (if isInPerson == Some(true) then ["in_person"] else [])
  }

  /** The booking form's values. */
  datatype BookingForm = BookingForm(
    date: Option<DateTime>,
    time: string,
    instrumentId: string,
    lessonType: string,
    durationMinutes: int,
    notes: string)

  const InitialBookingForm := BookingForm(None, "", "", "online", DefaultDuration, "")

  /** The row a booking inserts into `lessons`. */
  datatype NewLesson = NewLesson(
    studentId: string,
    teacherId: string,
    instrumentId: string,
    scheduledAt: DateTime,
    durationMinutes: int,
    price: real,
    lessonType: string,
    notes: Option<string>,
    status: string)

  /** What pressing "Book" does: send a visitor to log in, refuse an
      incomplete form, fail on a slot that does not parse, or insert a lesson. */
  datatype LessonBooking = LoginRequired | MissingFields | InvalidTime | Insert(row: NewLesson)

  /** The form has a day, a time and an instrument (the button is enabled). */
  predicate Complete(form: BookingForm) {
    form.date.Some? && form.time != "" && form.instrumentId != ""
  }

  function BookLesson(user: Option<string>, teacherId: string, hourlyRate: int,
                      form: BookingForm): (b: LessonBooking)
    ensures b == LoginRequired <==> user.None?
    ensures b == MissingFields <==> user.Some? && !Complete(form)
    ensures b == InvalidTime <==> user.Some? && Complete(form) && SlotTime(form.time).None?
    ensures b.Insert? ==>
      b.row.studentId == user.value && b.row.teacherId == teacherId &&
      b.row.instrumentId == form.instrumentId &&
      Some(b.row.scheduledAt) == ScheduledAt(form.date.value, form.time) &&
      b.row.durationMinutes == form.durationMinutes &&
      b.row.price == LessonPrice(hourlyRate, form.durationMinutes) &&
      b.row.lessonType == form.lessonType &&
      (b.row.notes.None? <==> form.notes == "") &&
      (b.row.notes.Some? ==> b.row.notes.value == form.notes) &&
      b.row.status == Pending
  {
    if user.None? then LoginRequired
    else if !Complete(form) then MissingFields
    else match ScheduledAt(form.date.value, form.time)
      case None => InvalidTime
      case Some(at) =>
        Insert(NewLesson(
          user.value, teacherId, form.instrumentId, at, form.durationMinutes,
          LessonPrice(hourlyRate, form.durationMinutes), form.lessonType,
          if form.notes == "" then None else Some(form.notes), Pending))
  }

  /** A signed-in student who picks a selectable day, the i-th slot and an
      instrument books a pending lesson at hour 9 + i of that day, which lies
      after the moment of booking. */
  lemma BookingAtOfferedSlot(user: string, teacherId: string, hourlyRate: int,
                             form: BookingForm, i: int, now: DateTime)
    requires form.date.Some? && IsMidnight(form.date.value) && Selectable(form.date.value, now)
    requires 0 <= i < |TimeSlots| && form.time == TimeSlots[i] && form.instrumentId != ""
    ensures BookLesson(Some(user), teacherId, hourlyRate, form).Insert?
    ensures BookLesson(Some(user), teacherId, hourlyRate, form).row.scheduledAt
            == AtTime(form.date.value, 9 + i, 0)
    ensures Earlier(now, BookLesson(Some(user), teacherId, hourlyRate, form).row.scheduledAt)
  {
    SlotsAreWholeHours();
    var d := form.date.value;
    var at := AtTime(d, 9 + i, 0);
    assert ScheduledAt(d, form.time) == Some(at);
    MidnightFirst(d, at);
    EarlierTotal(d, now);
    if d != now {
      EarlierTransitive(now, d, at);
    }
  }
}

/** The teacher's dashboard: the profile settings form, the taught
    instruments, and confirming or declining booked lessons. */
module TeacherDashboard {
  import opened Text
  import opened Lists
  import opened Lessons

  /** A row of `teacher_profiles`, with its nullable columns as `Option`s. */
  datatype TeacherProfile = TeacherProfile(
    id: string,
    userId: string,
    hourlyRate: int,
    experienceYears: Option<int>,
    isOnlineAvailable: Option<bool>,
    isInPersonAvailable: Option<bool>,
    teachingStyle: Option<string>,
    availability: Option<string>)

  /** The values of the settings form, which are also the columns a save writes. */
  datatype ProfileForm = ProfileForm(
    hourlyRate: int,
    experienceYears: int,
    isOnlineAvailable: bool,
    isInPersonAvailable: bool,
    teachingStyle: string,
    availability: string)

  /** The form before any profile is loaded. */
  const InitialForm := ProfileForm(500, 0, true, true, "", "")

  /** The form filled from a loaded profile: a null or zero experience shows 0,
      a null availability flag shows as on, a null text shows as empty. */
  function FormFromProfile(p: TeacherProfile): (f: ProfileForm)
    ensures f.hourlyRate == p.hourlyRate
    ensures f.experienceYears == (if p.experienceYears.Some? then p.experienceYears.value else 0)
    ensures f.isOnlineAvailable <==> p.isOnlineAvailable != Some(false)
    ensures f.isInPersonAvailable <==> p.isInPersonAvailable != Some(false)
    ensures f.teachingStyle == (if p.teachingStyle.Some? then p.teachingStyle.value else "")
    ensures f.availability == (if p.availability.Some? then p.availability.value else "")
  {
    ProfileForm(
      p.hourlyRate,
      IntOr(p.experienceYears, 0),
      OrElse(p.isOnlineAvailable, true),
      OrElse(p.isInPersonAvailable, true),
      OrElse(p.teachingStyle, ""),
      OrElse(p.availability, ""))
  }

  /** The `teacher_profiles` update a save sends: every form value, for the
      loaded profile's id. */
  datatype ProfileUpdate = ProfileUpdate(profileId: string, values: ProfileForm)

  /** A write to `teacher_instruments` made by toggling an instrument. */
  datatype LinkWrite = DeleteLink(teacherId: string, instrumentId: string)
                     | InsertLink(teacherId: string, instrumentId: string)

  /** `prev.map(l => l.id === lessonId ? { ...l, status } : l)`. */
  function WithStatus(ls: seq<Lesson>, lessonId: string, status: string): (r: seq<Lesson>)
    ensures |r| == |ls|
    ensures forall i :: 0 <= i < |ls| && ls[i].id != lessonId ==> r[i] == ls[i]
    ensures forall i :: 0 <= i < |ls| && ls[i].id == lessonId ==>
              r[i].status == status && r[i].(status := ls[i].status) == ls[i]
  {
    if ls == [] then []
    else [if ls[0].id == lessonId then ls[0].(status := status) else ls[0]]
         + WithStatus(ls[1..], lessonId, status)
  }

  /** Setting a lesson to any status other than `pending` takes exactly that
      lesson out of the pending list and keeps the others in order. */
  lemma {:induction false} ResolvedLeavesPending(ls: seq<Lesson>, lessonId: string, status: string)
    requires status != Pending
    ensures PendingLessons(WithStatus(ls, lessonId, status))
            == Filter(PendingLessons(ls), (l: Lesson) => l.id != lessonId)
  {
    if ls != [] {
      ResolvedLeavesPending(ls[1..], lessonId, status);
      assert WithStatus(ls, lessonId, status)[1..] == WithStatus(ls[1..], lessonId, status);
    }
  }

  /** The statuses a teacher may move a lesson to from its card: confirm or
      decline, offered only while the lesson is pending. */
  function Actions(l: Lesson): (r: seq<string>)
    ensures r != [] <==> l.status == Pending
    ensures forall s :: s in r ==> s == Confirmed || s == Cancelled
    ensures r != [] ==> Confirmed in r && Cancelled in r
  {
    if l.status == Pending then [Confirmed, Cancelled] else []
  }

  /** The teacher's badge: confirmed, pending and cancelled each have their
      own variant and every other status is outlined. */
  function Badge(status: string): (v: BadgeVariant)
    ensures v == Default <==> status == Confirmed
    ensures v == Secondary <==> status == Pending
    ensures v == Destructive <==> status == Cancelled
    ensures v == Outline <==> status !in {Confirmed, Pending, Cancelled}
  {
    if status == Confirmed then Default
    else if status == Pending then Secondary
    else if status == Cancelled then Destructive
    else Outline
  }

  /** The dashboard's state: the loaded profile (absent for a user who is not
      a teacher), the lessons booked with the teacher, the ids of the
      instruments taught, and the settings form. */
  class Dashboard {
    var teacherProfile: Option<TeacherProfile>
    var lessons: seq<Lesson>
    var teacherInstruments: seq<string>
    var form: ProfileForm

    constructor ()
      ensures teacherProfile.None? && lessons == [] && teacherInstruments == []
      ensures form == InitialForm
    {
      teacherProfile := None;
      lessons := [];
      teacherInstruments := [];
      form := InitialForm;
    }

    /** The load: nothing changes without a profile; with one, the profile
        fills the form, and the instrument ids and lessons replace the lists
        when their queries returned rows. */
    method Load(profile: Option<TeacherProfile>, instrumentIds: Option<seq<string>>,
                lessonRows: Option<seq<Lesson>>)
      modifies this
      ensures profile.None? ==>
        teacherProfile == old(teacherProfile) && form == old(form) &&
        lessons == old(lessons) && teacherInstruments == old(teacherInstruments)
      ensures profile.Some? ==>
        teacherProfile == profile && form == FormFromProfile(profile.value) &&
        teacherInstruments == OrElse(instrumentIds, old(teacherInstruments)) &&
        lessons == OrElse(lessonRows, old(lessons))
    {
      if profile.Some? {
        teacherProfile := profile;
        form := FormFromProfile(profile.value);
        if instrumentIds.Some? {
          teacherInstruments := instrumentIds.value;
        }
        if lessonRows.Some? {
          lessons := lessonRows.value;
        }
      }
    }

    /** The update a save sends, or none without a loaded profile. */
    method SaveProfile() returns (update: Option<ProfileUpdate>)
      ensures update.None? <==> teacherProfile.None?
      ensures update.Some? ==> update.value.profileId == teacherProfile.value.id
                               && update.value.values == form
    {
      if teacherProfile.None? {
        return None;
      }
      update := Some(ProfileUpdate(teacherProfile.value.id, form));
    }

    /** Adds or removes a taught instrument. The list changes whatever the
        write's result; without a profile nothing happens. */
    method ToggleInstrument(instrumentId: string) returns (write: Option<LinkWrite>)
      modifies this`teacherInstruments
      ensures teacherProfile.None? ==> write.None? && teacherInstruments == old(teacherInstruments)
      ensures teacherProfile.Some? ==>
        teacherInstruments == Toggle(old(teacherInstruments), instrumentId) &&
        write == Some(if instrumentId in old(teacherInstruments)
                      then DeleteLink(teacherProfile.value.id, instrumentId)
                      else InsertLink(teacherProfile.value.id, instrumentId))
      ensures NoDuplicates(old(teacherInstruments)) ==> NoDuplicates(teacherInstruments)
    {
      if teacherProfile.None? {
        return None;
      }
      if NoDuplicates(teacherInstruments) {
        ToggleNoDuplicates(teacherInstruments, instrumentId);
      }
      if instrumentId in teacherInstruments {
        write := Some(DeleteLink(teacherProfile.value.id, instrumentId));
        teacherInstruments := RemoveAll(teacherInstruments, instrumentId);
      } else {
        write := Some(InsertLink(teacherProfile.value.id, instrumentId));
        teacherInstruments := teacherInstruments + [instrumentId];
      }
    }

    /** Confirms or declines a lesson: on success only that lesson's status
        changes, on a failed update nothing does. */
    method UpdateLessonStatus(lessonId: string, status: string, failed: bool)
      modifies this`lessons
      ensures failed ==> lessons == old(lessons)
      ensures !failed ==> lessons == WithStatus(old(lessons), lessonId, status)
    {
      if !failed {
        lessons := WithStatus(lessons, lessonId, status);
      }
    }
  }
}

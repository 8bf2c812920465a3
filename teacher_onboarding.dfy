/** The form in which a teacher completes their profile: personal details,
    teaching terms and the instruments they teach. */
module TeacherOnboarding {
  import opened Text
  import opened Lists

  const DefaultHourlyRate := 500
  const FallbackError := "Failed to update profile"

  /** The instrument chips offered on the form. */
  const CommonInstruments: seq<string> := [
    "Piano", "Guitar", "Drums", "Violin", "Bass", "Vocals", "Saxophone",
    "Trumpet", "Flute", "Ukulele", "Keyboard", "Percussion", "Cello",
    "Nyatiti", "Djembe", "Kalimba"]

  /** A row of the `instruments` catalogue. */
  datatype Instrument = Instrument(id: string, name: string)

  /** `existing.find(i => i.name.toLowerCase() === name.toLowerCase())`: the
      first catalogue entry with the same name ignoring case. */
  function FindByName(existing: seq<Instrument>, name: string): (r: Option<Instrument>)
    ensures r.Some? ==> r.value in existing && Lower(r.value.name) == Lower(name)
    ensures r.None? <==> forall i :: 0 <= i < |existing| ==> Lower(existing[i].name) != Lower(name)
    ensures r.Some? ==> exists k :: 0 <= k < |existing| && existing[k] == r.value &&
                                    forall j :: 0 <= j < k ==> Lower(existing[j].name) != Lower(name)
  {
    if existing == [] then None
    else if Lower(existing[0].name) == Lower(name) then Some(existing[0])
    else
      var r := FindByName(existing[1..], name);
      assert r.None? ==> forall i :: 0 <= i < |existing| ==> Lower(existing[i].name) != Lower(name) by {
        if r.None? {
          forall i | 0 <= i < |existing|
            ensures Lower(existing[i].name) != Lower(name)
          {
            if i > 0 { assert existing[i] == existing[1..][i - 1]; }
          }
        }
      }
      assert r.Some? ==> exists k :: 0 <= k < |existing| && existing[k] == r.value &&
                                     forall j :: 0 <= j < k ==> Lower(existing[j].name) != Lower(name) by {
        if r.Some? {
          var k :| 0 <= k < |existing[1..]| && existing[1..][k] == r.value &&
                   forall j :: 0 <= j < k ==> Lower(existing[1..][j].name) != Lower(name);
          assert existing[k + 1] == r.value;
          forall j | 0 <= j < k + 1
            ensures Lower(existing[j].name) != Lower(name)
          {
            if j > 0 { assert existing[j] == existing[1..][j - 1]; }
          }
        }
      }
      r
  }

  /** The writes the submit makes, in order. */
  datatype Write =
    | UpdateProfile(userId: string, fullName: string, bio: string, location: string, phone: string)
    | UpdateTeacher(teacherId: string, hourlyRate: int, experienceYears: int,
                    teachingStyle: string, isOnlineAvailable: bool, isInPersonAvailable: bool)
    | DeleteLinks(teacherId: string)
    | InsertLink(teacherId: string, instrumentId: string)

  /** One insert per selected name, in order, linking the catalogue entry the
      name finds; a name with no catalogue entry is skipped. */
  function LinkWrites(teacherId: string, names: seq<string>, existing: seq<Instrument>): (ws: seq<Write>)
    ensures |ws| <= |names|
    ensures forall w :: w in ws ==> w.InsertLink? && w.teacherId == teacherId
    decreases |names|
  {
    if names == [] then []
    else
      var ws := LinkWrites(teacherId, names[..|names| - 1], existing);
      match FindByName(existing, names[|names| - 1])
      case None => ws
      case Some(ins) => ws + [InsertLink(teacherId, ins.id)]
  }

  /** The ids of one teacher's `teacher_instruments` rows after a write. */
  function Apply(links: set<string>, w: Write): set<string> {
    match w
    case DeleteLinks(_) => {}
    case InsertLink(_, id) => links + {id}
    case _ => links
  }

  /** The rows after a sequence of writes, made in order. */
  function ApplyAll(links: set<string>, ws: seq<Write>): set<string>
    decreases |ws|
  {
    if ws == [] then links else Apply(ApplyAll(links, ws[..|ws| - 1]), ws[|ws| - 1])
  }

  /** The catalogue entry `name` links to is `id`. */
  predicate LinksTo(existing: seq<Instrument>, name: string, id: string) {
    FindByName(existing, name).Some? && FindByName(existing, name).value.id == id
  }

  /** Some name links to `id` exactly when some name but the last does, or
      the last one does. */
  lemma LinksToSplit(existing: seq<Instrument>, init: seq<string>, last: string, id: string)
    ensures (exists i :: 0 <= i < |init + [last]| && LinksTo(existing, (init + [last])[i], id)) <==>
            (exists i :: 0 <= i < |init| && LinksTo(existing, init[i], id)) || LinksTo(existing, last, id)
  {
    var names := init + [last];
    if exists i :: 0 <= i < |names| && LinksTo(existing, names[i], id) {
      var i :| 0 <= i < |names| && LinksTo(existing, names[i], id);
      if i < |init| {
        assert init[i] == names[i];
      }
    }
    if exists i :: 0 <= i < |init| && LinksTo(existing, init[i], id) {
      var i :| 0 <= i < |init| && LinksTo(existing, init[i], id);
      assert names[i] == init[i];
    }
    assert names[|init|] == last;
  }

  /** An insert adds its id to the rows there were. */
  lemma ApplyAllInsert(links: set<string>, ws: seq<Write>, teacherId: string, id: string)
    ensures ApplyAll(links, ws + [InsertLink(teacherId, id)]) == ApplyAll(links, ws) + {id}
  {
    var all := ws + [InsertLink(teacherId, id)];
    assert all[..|all| - 1] == ws;
  }

  /** After the inserts for `names` the linked ids are exactly those some
      name finds in the catalogue, added to the links there were before. */
  lemma {:induction false} LinkWritesAdd(links: set<string>, teacherId: string, names: seq<string>,
                                          existing: seq<Instrument>, prefix: seq<Write>)
    ensures forall id :: id in ApplyAll(links, prefix + LinkWrites(teacherId, names, existing)) <==>
              id in ApplyAll(links, prefix) ||
              exists i :: 0 <= i < |names| && LinksTo(existing, names[i], id)
    decreases |names|
  {
    if names == [] {
      assert prefix + [] == prefix;
    } else {
      var init := names[..|names| - 1];
      var last := names[|names| - 1];
      assert names == init + [last];
      var ws := LinkWrites(teacherId, init, existing);
      var all := prefix + LinkWrites(teacherId, names, existing);
      LinkWritesAdd(links, teacherId, init, existing, prefix);
      // The rows the last name leaves, beside those the other names left.
      var lastIds: set<string> := if FindByName(existing, last).Some? then {FindByName(existing, last).value.id} else {};
      assert ApplyAll(links, all) == ApplyAll(links, prefix + ws) + lastIds by {
        match FindByName(existing, last)
        case None =>
          assert all == prefix + ws;
        case Some(ins) =>
          assert all == (prefix + ws) + [InsertLink(teacherId, ins.id)];
          ApplyAllInsert(links, prefix + ws, teacherId, ins.id);
      }
      forall id | true
        ensures id in ApplyAll(links, all) <==>
                id in ApplyAll(links, prefix) || exists i :: 0 <= i < |names| && LinksTo(existing, names[i], id)
      {
        assert LinksTo(existing, last, id) <==> id in lastIds;
        LinksToSplit(existing, init, last, id);
      }
    }
  }

  /** What "Complete profile" ends in: a session without ids, an empty
      instrument selection, a failed update with its message, or success;
      the writes made before failure or success come with it. */
  datatype Outcome =
    | SessionError
    | NoInstruments
    | Failed(message: string, writes: seq<Write>)
    | Saved(writes: seq<Write>)

  /** An error's message, or the fallback when it has none. */
  function ErrorMessage(message: string): (r: string)
    ensures r != ""
    ensures message != "" ==> r == message
  {
    if message == "" then FallbackError else message
  }

  /** The form's values. */
  datatype Details = Details(
    fullName: string,
    bio: string,
    location: string,
    phone: string,
    hourlyRate: string,
    experienceYears: string,
    teachingStyle: string,
    isOnlineAvailable: bool,
    isInPersonAvailable: bool)

  /** The outcome of a submit: guards first, then the profile update (which
      may fail with `profileError`), the teacher update (which may fail with
      `teacherError`), removal of all links and one insert per selected name
      that the catalogue knows. The results of the removal and the inserts
      are not looked at. */
  function SubmitOutcome(userId: Option<string>, teacherId: Option<string>, d: Details,
                         selected: seq<string>, existing: seq<Instrument>,
                         profileError: Option<string>, teacherError: Option<string>): (o: Outcome)
    ensures o == SessionError <==> userId.None? || teacherId.None?
    ensures o == NoInstruments <==> userId.Some? && teacherId.Some? && selected == []
    ensures o.Failed? <==> userId.Some? && teacherId.Some? && selected != [] &&
                           (profileError.Some? || teacherError.Some?)
    ensures o.Failed? ==> o.message != ""
    ensures o.Failed? && profileError.Some? ==>
      o.message == ErrorMessage(profileError.value) && |o.writes| == 1
    ensures o.Failed? && profileError.None? ==>
      o.message == ErrorMessage(teacherError.value) && |o.writes| == 2
    ensures o.Saved? ==> |o.writes| == 3 + |LinkWrites(teacherId.value, selected, existing)|
    ensures o.Failed? || o.Saved? ==>
      o.writes[0] == UpdateProfile(userId.value, d.fullName, d.bio, d.location, d.phone)
    ensures (o.Failed? && profileError.None?) || o.Saved? ==>
      o.writes[1].UpdateTeacher? && o.writes[1].teacherId == teacherId.value &&
      o.writes[1].hourlyRate == IntOr(ParseInt(d.hourlyRate), DefaultHourlyRate) &&
      o.writes[1].experienceYears == IntOr(ParseInt(d.experienceYears), 0) &&
      o.writes[1].teachingStyle == d.teachingStyle &&
      o.writes[1].isOnlineAvailable == d.isOnlineAvailable &&
      o.writes[1].isInPersonAvailable == d.isInPersonAvailable
    ensures o.Saved? ==>
      o.writes[2] == DeleteLinks(teacherId.value) &&
      o.writes[3..] == LinkWrites(teacherId.value, selected, existing)
  {
    if userId.None? || teacherId.None? then SessionError
    else if selected == [] then NoInstruments
    else
      var profile := UpdateProfile(userId.value, d.fullName, d.bio, d.location, d.phone);
      var teacher := UpdateTeacher(teacherId.value, IntOr(ParseInt(d.hourlyRate), DefaultHourlyRate),
                                   IntOr(ParseInt(d.experienceYears), 0), d.teachingStyle,
                                   d.isOnlineAvailable, d.isInPersonAvailable);
      if profileError.Some? then Failed(ErrorMessage(profileError.value), [profile])
      else if teacherError.Some? then Failed(ErrorMessage(teacherError.value), [profile, teacher])
      else Saved([profile, teacher, DeleteLinks(teacherId.value)] + LinkWrites(teacherId.value, selected, existing))
  }

  /** After a successful submit the teacher teaches exactly the catalogue
      instruments that some selected name finds, whatever was linked before;
      a name the catalogue does not know links nothing. */
  lemma SavedLinksAreSelection(userId: string, teacherId: string, d: Details, selected: seq<string>,
                               existing: seq<Instrument>, before: set<string>)
    requires SubmitOutcome(Some(userId), Some(teacherId), d, selected, existing, None, None).Saved?
    ensures forall id ::
      id in ApplyAll(before, SubmitOutcome(Some(userId), Some(teacherId), d, selected, existing, None, None).writes)
      <==> exists i :: 0 <= i < |selected| && LinksTo(existing, selected[i], id)
  {
    var o := SubmitOutcome(Some(userId), Some(teacherId), d, selected, existing, None, None);
    var prefix := o.writes[..3];
    assert o.writes == prefix + o.writes[3..];
    assert ApplyAll(before, prefix) == {} by {
      assert prefix[..2][..1][..0] == [];
      assert prefix[..2] == prefix[..|prefix| - 1];
      assert prefix[..2][..1] == prefix[..2][..|prefix[..2]| - 1];
    }
    LinkWritesAdd(before, teacherId, selected, existing, prefix);
  }

  /** A rate shown as it was loaded is saved unchanged, except a rate of 0,
      which is saved as 500. */
  lemma LoadedRateSaved(rate: int)
    ensures rate != 0 ==> IntOr(ParseInt(IntToString(rate)), DefaultHourlyRate) == rate
    ensures rate == 0 ==> IntOr(ParseInt(IntToString(rate)), DefaultHourlyRate) == DefaultHourlyRate
  {
    IntToStringRoundTrip(rate);
  }

  /** The columns of the user's `profiles` row that the form shows. */
  datatype PersonalRow = PersonalRow(fullName: Option<string>, bio: Option<string>,
                                     location: Option<string>, phone: Option<string>)

  /** The columns of the user's `teacher_profiles` row that the form shows. */
  datatype TeacherRow = TeacherRow(id: string, hourlyRate: int, experienceYears: Option<int>,
                                   teachingStyle: Option<string>, isOnlineAvailable: Option<bool>,
                                   isInPersonAvailable: Option<bool>)

  /** The details after the personal row loads: each text, or empty for null. */
  function WithPersonal(d: Details, row: Option<PersonalRow>): (r: Details)
    ensures row.None? ==> r == d
    ensures row.Some? ==>
      r.fullName == OrElse(row.value.fullName, "") && r.bio == OrElse(row.value.bio, "") &&
      r.location == OrElse(row.value.location, "") && r.phone == OrElse(row.value.phone, "")
    ensures (r.hourlyRate, r.experienceYears, r.teachingStyle) == (d.hourlyRate, d.experienceYears, d.teachingStyle)
    ensures (r.isOnlineAvailable, r.isInPersonAvailable) == (d.isOnlineAvailable, d.isInPersonAvailable)
  {
    match row
    case None => d
    case Some(p) => d.(fullName := OrElse(p.fullName, ""), bio := OrElse(p.bio, ""),
                       location := OrElse(p.location, ""), phone := OrElse(p.phone, ""))
  }

  /** The details after the teacher row loads: the rate and experience as
      decimal text (an absent experience as empty), the style or empty, and
      each availability flag, on when null. */
  function WithTeacher(d: Details, row: Option<TeacherRow>): (r: Details)
    ensures row.None? ==> r == d
    ensures row.Some? ==>
      ParseInt(r.hourlyRate) == Some(row.value.hourlyRate) &&
      (row.value.experienceYears.None? <==> r.experienceYears == "") &&
      (row.value.experienceYears.Some? ==> ParseInt(r.experienceYears) == row.value.experienceYears) &&
      r.teachingStyle == OrElse(row.value.teachingStyle, "") &&
      (r.isOnlineAvailable <==> row.value.isOnlineAvailable != Some(false)) &&
      (r.isInPersonAvailable <==> row.value.isInPersonAvailable != Some(false))
    ensures (r.fullName, r.bio, r.location, r.phone) == (d.fullName, d.bio, d.location, d.phone)
  {
    match row
    case None => d
    case Some(t) =>
      IntToStringRoundTrip(t.hourlyRate);
      IntToStringRoundTrip(OrElse(t.experienceYears, 0));
      d.(hourlyRate := IntToString(t.hourlyRate),
         experienceYears := if t.experienceYears.Some? then IntToString(t.experienceYears.value) else "",
         teachingStyle := OrElse(t.teachingStyle, ""),
         isOnlineAvailable := OrElse(t.isOnlineAvailable, true),
         isInPersonAvailable := OrElse(t.isInPersonAvailable, true))
  }

  /** The form's state. */
  class Form {
    var userId: Option<string>
    var teacherId: Option<string>
    var details: Details
    var selectedInstruments: seq<string>
    var customInstrument: string
    var existingInstruments: seq<Instrument>

    constructor ()
      ensures userId.None? && teacherId.None? && selectedInstruments == []
      ensures customInstrument == "" && existingInstruments == []
      ensures details == Details("", "", "", "", "", "", "", true, true)
    {
      userId := None;
      teacherId := None;
      details := Details("", "", "", "", "", "", "", true, true);
      selectedInstruments := [];
      customInstrument := "";
      existingInstruments := [];
    }

    /** The page load. Without a signed-in user nothing is read. The user id
        is kept even when the role check then fails, and nothing else is.
        For a teacher, the personal row fills the details (a null text shows
        empty), the teacher row gives the teacher id and the terms (the rate
        and experience as their decimal text, a null flag as on), and the
        catalogue and the names of the linked instruments fill the lists when
        their queries returned rows. */
    method Load(user: Option<string>, isTeacher: bool, personal: Option<PersonalRow>,
                teacher: Option<TeacherRow>, catalogue: Option<seq<Instrument>>,
                linkedNames: Option<seq<Option<string>>>)
      modifies this`userId, this`teacherId, this`details, this`existingInstruments, this`selectedInstruments
      ensures user.None? ==>
        userId == old(userId) && teacherId == old(teacherId) &&
        details == old(details) && selectedInstruments == old(selectedInstruments) &&
        existingInstruments == old(existingInstruments)
      ensures user.Some? ==> userId == user
      ensures user.Some? && !isTeacher ==>
        teacherId == old(teacherId) && details == old(details) &&
        selectedInstruments == old(selectedInstruments) && existingInstruments == old(existingInstruments)
      ensures user.Some? && isTeacher ==>
        details == WithTeacher(WithPersonal(old(details), personal), teacher) &&
        teacherId == (if teacher.Some? then Some(teacher.value.id) else old(teacherId)) &&
        existingInstruments == OrElse(catalogue, old(existingInstruments)) &&
        selectedInstruments == (if teacher.Some? && linkedNames.Some?
                                then PresentStrings(linkedNames.value) else old(selectedInstruments))
    {
      if user.None? {
        return;
      }
      userId := user;
      if !isTeacher {
        return;
      }
      details := WithTeacher(WithPersonal(details, personal), teacher);
      if teacher.Some? {
        teacherId := Some(teacher.value.id);
      }
      if catalogue.Some? {
        existingInstruments := catalogue.value;
      }
      if teacher.Some? && linkedNames.Some? {
        selectedInstruments := PresentStrings(linkedNames.value);
      }
    }

    /** Clicks an instrument chip: selects it, or deselects it if selected. */
    method ToggleInstrument(name: string)
      modifies this`selectedInstruments
      ensures selectedInstruments == Toggle(old(selectedInstruments), name)
      ensures NoDuplicates(old(selectedInstruments)) ==> NoDuplicates(selectedInstruments)
    {
      if NoDuplicates(selectedInstruments) {
        ToggleNoDuplicates(selectedInstruments, name);
      }
      selectedInstruments := Toggle(selectedInstruments, name);
    }

    /** "Add" (or Enter in the text box): the trimmed custom name joins the
        selection and the box clears, unless the name is blank or already
        selected, in which case nothing changes. */
    method AddCustomInstrument()
      modifies this`selectedInstruments, this`customInstrument
      ensures var t := Trim(old(customInstrument));
        if t != [] && t !in old(selectedInstruments) then
          selectedInstruments == old(selectedInstruments) + [t] && customInstrument == ""
        else
          selectedInstruments == old(selectedInstruments) && customInstrument == old(customInstrument)
      ensures NoDuplicates(old(selectedInstruments)) ==> NoDuplicates(selectedInstruments)
    {
      var t := Trim(customInstrument);
      if t != [] && t !in selectedInstruments {
        selectedInstruments := selectedInstruments + [t];
        customInstrument := "";
      }
    }

    /** "Complete profile": runs the writes one after another and stops at
        the first failed update. The form is unchanged. */
    method HandleSubmit(profileError: Option<string>, teacherError: Option<string>) returns (o: Outcome)
      ensures o == SubmitOutcome(userId, teacherId, details, selectedInstruments,
                                 existingInstruments, profileError, teacherError)
    {
      if userId.None? || teacherId.None? {
        return SessionError;
      }
      if selectedInstruments == [] {
        return NoInstruments;
      }
      var tid := teacherId.value;
      var profile := UpdateProfile(userId.value, details.fullName, details.bio, details.location, details.phone);
      if profileError.Some? {
        return Failed(ErrorMessage(profileError.value), [profile]);
      }
      var teacher := UpdateTeacher(tid, IntOr(ParseInt(details.hourlyRate), DefaultHourlyRate),
                                   IntOr(ParseInt(details.experienceYears), 0), details.teachingStyle,
                                   details.isOnlineAvailable, details.isInPersonAvailable);
      if teacherError.Some? {
        return Failed(ErrorMessage(teacherError.value), [profile, teacher]);
      }
      var writes := [profile, teacher, DeleteLinks(tid)];
      var i := 0;
      while i < |selectedInstruments|
        invariant 0 <= i <= |selectedInstruments|
        invariant writes == [profile, teacher, DeleteLinks(tid)]
                            + LinkWrites(tid, selectedInstruments[..i], existingInstruments)
      {
        var name := selectedInstruments[i];
        assert selectedInstruments[..i + 1][..i] == selectedInstruments[..i];
        var existing := FindByName(existingInstruments, name);
        i := i + 1;
        if existing.None? {
          continue;
        }
        writes := writes + [InsertLink(tid, existing.value.id)];
      }
      assert selectedInstruments[..i] == selectedInstruments;
      o := Saved(writes);
    }
  }
}

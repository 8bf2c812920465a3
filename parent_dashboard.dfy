/** The parent's dashboard: the children's cards with their ages and lesson
    counts, the recent lessons, and the dialog that adds or edits a child. */
module ParentDashboard {
  import opened Text
  import opened Calendar
  import opened Lists
  import opened Lessons

  /** A row of `child_profiles`. */
  datatype Child = Child(
    id: string,
    fullName: string,
    dateOfBirth: Option<string>,
    notes: Option<string>)

  // ---------------------------------------------------------------------------
  // Age

  /** The `n`-th birthday falls on or before `today`, comparing year, month and
      day in that order (a 29 February birthday counts as reached once the
      month and day of `today` are not before it). */
  function BirthdayReached(birth: DateTime, today: DateTime, n: int): (b: bool)
    ensures birth.year + n < today.year ==> b
    ensures birth.year + n > today.year ==> !b
    ensures birth.year + n == today.year && birth.month == today.month && birth.day == today.day ==> b
  {
    birth.year + n < today.year ||
    (birth.year + n == today.year &&
      (birth.month < today.month || (birth.month == today.month && birth.day <= today.day)))
  }

  /** Later birthdays are reached only if earlier ones are. */
  lemma BirthdaysInOrder(birth: DateTime, today: DateTime, m: int, n: int)
    requires m <= n && BirthdayReached(birth, today, n)
    ensures BirthdayReached(birth, today, m)
  {
  }

  /** `getChildAge`: no age for a missing or empty date of birth; otherwise the
      difference of the years, one less while this year's birthday is still
      ahead. `birth` is the date `new Date(dob)` reads. */
  method ChildAge(dob: Option<string>, birth: DateTime, today: DateTime) returns (age: Option<int>)
    ensures age.None? <==> dob.None? || dob.value == ""
    ensures age.Some? ==>
      BirthdayReached(birth, today, age.value) && !BirthdayReached(birth, today, age.value + 1)
  {
    if dob.None? || dob.value == "" {
      return None;
    }
    var years := today.year - birth.year;
    var m := today.month - birth.month;
    if m < 0 || (m == 0 && today.day < birth.day) {
      years := years - 1;
    }
    return Some(years);
  }

  /** Only one number of years lies between a birthday reached and the next
      one not reached, so the age above is the number of birthdays passed. */
  lemma AgeUnique(birth: DateTime, today: DateTime, a: int, b: int)
    requires BirthdayReached(birth, today, a) && !BirthdayReached(birth, today, a + 1)
    requires BirthdayReached(birth, today, b) && !BirthdayReached(birth, today, b + 1)
    ensures a == b
  {
    if a < b {
      BirthdaysInOrder(birth, today, a + 1, b);
    } else if b < a {
      BirthdaysInOrder(birth, today, b + 1, a);
    }
  }

  /** A child born on or before today is at least 0 years old. */
  lemma AgeNotNegative(birth: DateTime, today: DateTime, age: int)
    requires BirthdayReached(birth, today, 0)
    requires BirthdayReached(birth, today, age) && !BirthdayReached(birth, today, age + 1)
    ensures age >= 0
  {
    if age < 0 {
      BirthdaysInOrder(birth, today, age + 1, 0);
    }
  }

  // ---------------------------------------------------------------------------
  // Lessons per child

  /** `getChildLessons`: the lessons booked for the child, in list order. */
  function ChildLessons(ls: seq<Lesson>, childId: string): (r: seq<Lesson>)
    ensures forall l :: l in r <==> l in ls && l.childId == Some(childId)
    ensures IsSubsequence(r, ls)
  {
    Filter(ls, (l: Lesson) => l.childId == Some(childId))
  }

  /** No lesson is counted for two different children. */
  lemma ChildLessonsDisjoint(ls: seq<Lesson>, c1: string, c2: string, l: Lesson)
    requires c1 != c2 && l in ChildLessons(ls, c1)
    ensures l !in ChildLessons(ls, c2)
  {
  }

  /** A child's card counts its upcoming lessons; taking the child's lessons
      first and the upcoming ones second gives the same list as the other way
      round. */
  lemma ChildUpcomingCommutes(ls: seq<Lesson>, childId: string, now: DateTime)
    ensures Upcoming(ChildLessons(ls, childId), now) == ChildLessons(Upcoming(ls, now), childId)
  {
    FilterCommute(ls, (l: Lesson) => l.childId == Some(childId), l => IsUpcoming(l, now));
  }

  /** The same for the completed count. */
  lemma ChildCompletedCommutes(ls: seq<Lesson>, childId: string)
    ensures CompletedLessons(ChildLessons(ls, childId)) == ChildLessons(CompletedLessons(ls), childId)
  {
    FilterCommute(ls, (l: Lesson) => l.childId == Some(childId), (l: Lesson) => l.status == Completed);
  }

  /** The "Recent Lessons" list: the first five loaded lessons. */
  function RecentLessons(ls: seq<Lesson>): (r: seq<Lesson>)
    ensures |r| <= 5 && r <= ls
    ensures |ls| <= 5 ==> r == ls
    ensures |ls| > 5 ==> r == ls[..5]
  {
    Take(ls, 5)
  }

  /** The badge of a recent lesson: completed is default, cancelled is
      destructive, everything else secondary. */
  function RecentBadge(status: string): (v: BadgeVariant)
    ensures v == Default <==> status == Completed
    ensures v == Destructive <==> status == Cancelled
    ensures v == Secondary <==> status != Completed && status != Cancelled
    ensures v != Outline
  {
    if status == Completed then Default
    else if status == Cancelled then Destructive
    else Secondary
  }

  /** `children.find(c => c.id === lesson.child_id)`: the first child with the
      lesson's child id, if any. */
  function FindChild(children: seq<Child>, childId: Option<string>): (r: Option<Child>)
    ensures r.Some? ==> r.value in children && Some(r.value.id) == childId
    ensures r.None? <==> forall i :: 0 <= i < |children| ==> Some(children[i].id) != childId
  {
    if children == [] then None
    else if Some(children[0].id) == childId then Some(children[0])
    else
      var r := FindChild(children[1..], childId);
      assert r.None? ==> forall i :: 0 <= i < |children| ==> Some(children[i].id) != childId by {
        if r.None? {
          forall i | 0 <= i < |children|
            ensures Some(children[i].id) != childId
          {
            if i > 0 { assert children[i] == children[1..][i - 1]; }
          }
        }
      }
      r
  }

  // ---------------------------------------------------------------------------
  // Adding and editing a child

  /** The write "Add Child" / "Update Child" sends. */
  datatype ChildWrite =
    | UpdateChild(childId: string, fullName: string, dateOfBirth: Option<string>, notes: Option<string>)
    | InsertChild(parentId: string, fullName: string, dateOfBirth: Option<string>, notes: Option<string>)

  /** `s || null` for a text field. */
  function NullIfEmpty(s: string): (r: Option<string>)
    ensures r.None? <==> s == ""
    ensures r.Some? ==> r.value == s
  {
    if s == "" then None else Some(s)
  }

  /** What saving the dialog sends: nothing for a blank name; otherwise an
      update of the child being edited, or an insert for the parent. The name
      is sent as typed, untrimmed. */
  function SaveWrite(editing: Option<Child>, parentId: string, name: string, dob: string,
                     notes: string): (w: Option<ChildWrite>)
    ensures w.None? <==> IsBlank(name)
    ensures w.Some? ==> (w.value.UpdateChild? <==> editing.Some?)
    ensures w.Some? && editing.Some? ==> w.value.childId == editing.value.id
    ensures w.Some? && editing.None? ==> w.value.parentId == parentId
    ensures w.Some? ==>
      w.value.fullName == name && w.value.dateOfBirth == NullIfEmpty(dob) &&
      w.value.notes == NullIfEmpty(notes)
  {
    if IsBlank(name) then None
    else if editing.Some? then
      Some(UpdateChild(editing.value.id, name, NullIfEmpty(dob), NullIfEmpty(notes)))
    else Some(InsertChild(parentId, name, NullIfEmpty(dob), NullIfEmpty(notes)))
  }

  /** Opening a child for editing and saving it untouched writes the child's
      own values back; only an empty date of birth or empty notes become null. */
  lemma EditThenSaveWritesBack(c: Child, parentId: string)
    requires !IsBlank(c.fullName)
    requires c.dateOfBirth != Some("") && c.notes != Some("")
    ensures SaveWrite(Some(c), parentId, c.fullName, OrElse(c.dateOfBirth, ""), OrElse(c.notes, ""))
            == Some(UpdateChild(c.id, c.fullName, c.dateOfBirth, c.notes))
  {
  }

  /** The page's state: the loaded children and lessons, and the dialog. */
  class Dashboard {
    var children: seq<Child>
    var lessons: seq<Lesson>
    var dialogOpen: bool
    var editingChild: Option<Child>
    var childName: string
    var childDob: string
    var childNotes: string

    /** The dialog is closed with empty fields and no child being edited. */
    predicate DialogReset()
      reads this
    {
      !dialogOpen && editingChild.None? && childName == "" && childDob == "" && childNotes == ""
    }

    constructor ()
      ensures children == [] && lessons == [] && DialogReset()
    {
      children := [];
      lessons := [];
      dialogOpen := false;
      editingChild := None;
      childName := "";
      childDob := "";
      childNotes := "";
    }

    /** `loadData`: `childRows` answers the children query and `lessonRows`
        the lessons query (`None` for an error). The lessons are asked for
        only when there are children; an error stops the loading where it
        happens. */
    method LoadData(childRows: Option<seq<Child>>, lessonRows: Option<seq<Lesson>>)
      modifies this`children, this`lessons
      ensures childRows.None? ==> children == old(children) && lessons == old(lessons)
      ensures childRows.Some? ==> children == childRows.value
      ensures childRows.Some? && childRows.value != [] && lessonRows.Some? ==>
        lessons == lessonRows.value
      ensures childRows.Some? && (childRows.value == [] || lessonRows.None?) ==>
        lessons == old(lessons)
    {
      if childRows.None? {
        return;
      }
      children := childRows.value;
      if childRows.value != [] && lessonRows.Some? {
        lessons := lessonRows.value;
      }
    }

    /** `handleEditChild`: fills the dialog from the child and opens it. */
    method EditChild(c: Child)
      modifies this`dialogOpen, this`editingChild, this`childName, this`childDob, this`childNotes
      ensures dialogOpen && editingChild == Some(c) && childName == c.fullName
      ensures childDob == OrElse(c.dateOfBirth, "") && childNotes == OrElse(c.notes, "")
    {
      editingChild := Some(c);
      childName := c.fullName;
      childDob := OrElse(c.dateOfBirth, "");
      childNotes := OrElse(c.notes, "");
      dialogOpen := true;
    }

    /** Opening the dialog with "Add Child" keeps the fields as they are. */
    method OpenDialog()
      modifies this`dialogOpen
      ensures dialogOpen
    {
      dialogOpen := true;
    }

    /** Closing the dialog forgets the child being edited and clears the fields. */
    method CloseDialog()
      modifies this`dialogOpen, this`editingChild, this`childName, this`childDob, this`childNotes
      ensures DialogReset()
    {
      dialogOpen := false;
      editingChild := None;
      childName := "";
      childDob := "";
      childNotes := "";
    }

    /** `handleAddChild` for the signed-in parent: `w` is the write sent, if
        any, and `failed` says whether it was refused. A blank name sends
        nothing; a save that went through resets and closes the dialog; a
        refused one leaves it as it was. */
    method Save(parentId: string, failed: bool) returns (w: Option<ChildWrite>)
      modifies this`dialogOpen, this`editingChild, this`childName, this`childDob, this`childNotes
      ensures w == SaveWrite(old(editingChild), parentId, old(childName), old(childDob), old(childNotes))
      ensures w.Some? && !failed ==> DialogReset()
      ensures w.None? || failed ==>
        dialogOpen == old(dialogOpen) && editingChild == old(editingChild) &&
        childName == old(childName) && childDob == old(childDob) && childNotes == old(childNotes)
    {
      w := SaveWrite(editingChild, parentId, childName, childDob, childNotes);
      if w.Some? && !failed {
        childName := "";
        childDob := "";
        childNotes := "";
        editingChild := None;
        dialogOpen := false;
      }
    }
  }
}

# Tunetrails front end, modelled in Dafny

Tunetrails is a music marketplace. Students and parents book lessons with
teachers, clients request performers ("gigs") for events, and every user can
message every other. The web front end is a set of React pages over a hosted
database SDK. Almost every operation is a remote call, but the pages hold small
pieces of self-contained logic. This project models that logic and proves
properties of it:

- the price of a lesson and the total of a gig booking, and the record a
  booking inserts;
- the lesson status lifecycle on the teacher's dashboard and the upcoming, past,
  pending and completed lists on the three dashboards;
- the student's figures, a child's age and lessons, and the add-or-edit child
  dialog;
- the bounded genre and link lists of the performer form and the instrument
  selection of the teacher form, with the name-to-id resolution loop of its
  submit;
- the search and filter predicates of the teacher and performer directories;
- the messaging client state: the sorted participant pair, reusing or creating
  a conversation, sending with trim and restore-on-error, appending inserted
  messages, and the navigation bar's unread counter and badge;
- sign-up and login validation, the metadata a sign-up sends, and the rewording
  of two authentication errors.

Each remote call's answer becomes a parameter of the operation that makes the
call. `None` or `failed` stands for an error, and `Some(rows)` for rows
returned. The current time is a parameter too. The modules are:

- shared:
  - `Ordering`: lexicographic order;
  - `Text`: JavaScript string and number primitives;
  - `Lists`: array operations;
  - `Calendar`: dates as 7-field tuples compared lexicographically;
  - `Lessons`: the lesson row and the shared partitions;
- one module per page or component.

Page state that the source updates in place is a `class`. Examples are the
dashboards, the onboarding forms, the unread counter, the chat dialog and the
messages page. Its methods are tied to the pure functions that the lemmas talk
about.

JavaScript semantics are written out:
- `toLowerCase` is ASCII lower-casing;
- `includes` is a substring test;
- `trim` uses the ECMAScript white-space set;
- `parseInt` skips leading white space and reads a sign, a `0x` prefix and the
  longest digit prefix, with `None` for `NaN`;
- `parseInt(x) || d` falls back on `NaN` and on 0;
- `[a, b].sort()` compares strings code point by code point;
- `x || null` turns the empty string into null;
- a null number is 0 in arithmetic and comparisons.

## Model

| member | source | states |
|---|---|---|
| TeacherDashboard.FormFromProfile | src/pages/TeacherDashboard.tsx:96-103 | the form takes the profile's rate; a null or zero experience shows 0; a null availability flag shows as on; null texts show empty |
| TeacherDashboard.WithStatus | src/pages/TeacherDashboard.tsx:206 | same length; exactly the lessons with the given id get the new status; every other field and every other lesson is unchanged |
| TeacherDashboard.ResolvedLeavesPending | src/pages/TeacherDashboard.tsx:206-215 | confirming or declining a lesson removes exactly that id from the pending list and keeps the rest in order |
| TeacherDashboard.Actions | src/pages/TeacherDashboard.tsx:382-397 | Confirm/Decline are offered iff the lesson is pending, and they target only `confirmed` and `cancelled` |
| TeacherDashboard.Badge | src/pages/TeacherDashboard.tsx:373-377 | each status maps to its variant, in both directions; any other status is outlined |
| TeacherDashboard.Dashboard.constructor | src/pages/TeacherDashboard.tsx:84-103 | no profile, empty lists, the form at its initial values |
| TeacherDashboard.Dashboard.Load | src/pages/TeacherDashboard.tsx:96-136 | without a profile nothing changes; with one, the form is filled from it and the lists are replaced only when their queries returned rows |
| TeacherDashboard.Dashboard.SaveProfile | src/pages/TeacherDashboard.tsx:151-165 | no update without a profile; otherwise every form value is sent for the profile's id |
| TeacherDashboard.Dashboard.ToggleInstrument | src/pages/TeacherDashboard.tsx:175-195 | no-op without a profile; otherwise removes every occurrence of a present id (with a delete) or appends an absent one (with an insert); keeps the list duplicate-free |
| TeacherDashboard.Dashboard.UpdateLessonStatus | src/pages/TeacherDashboard.tsx:197-209 | a failed update leaves the lessons unchanged; a successful one applies `WithStatus` |
| Lessons.Upcoming | src/pages/TeacherDashboard.tsx:211-213 | exactly the lessons strictly after now and not cancelled, as an order-preserving subsequence |
| Lessons.PendingLessons | src/pages/TeacherDashboard.tsx:215 | exactly the lessons whose status is `pending`, in order |
| Lessons.Past | src/pages/StudentDashboard.tsx:112-114 | exactly the lessons at or before now, or completed, in order |
| Lessons.IsUpcoming | src/pages/StudentDashboard.tsx:108-110 | a cancelled lesson is never upcoming; an upcoming one is neither at nor before now |
| Lessons.IsPast | src/pages/StudentDashboard.tsx:112-114 | past iff scheduled at or before now, or completed |
| Lessons.CompletedLessons | src/pages/StudentDashboard.tsx:96 | exactly the lessons whose status is `completed`, in order |
| Lessons.UpcomingPastOverlap | src/pages/StudentDashboard.tsx:108-114 | a lesson is in neither list iff it is in the future and cancelled, and in both iff it is in the future and completed |
| StudentDashboard.PriceOf | src/pages/StudentDashboard.tsx:102 | a null price counts as 0 |
| StudentDashboard.TotalSpentConcat | src/pages/StudentDashboard.tsx:102 | the summed price of two lists is the sum of their totals |
| StudentDashboard.TotalSpent | src/pages/StudentDashboard.tsx:102 | the `reduce` from the first lesson on equals the first price plus the total of the rest, a missing price counting as 0 |
| StudentDashboard.TotalSpentBounds | src/pages/StudentDashboard.tsx:102 | with no negative price, the total is at least any one lesson's price, which is at least 0 |
| StudentDashboard.ComputeStats | src/pages/StudentDashboard.tsx:94-103 | total is the list length; the upcoming and completed counts are the sizes of those partitions, each at most the total; money spent is the summed price |
| StudentDashboard.ComputeStatsStep | src/pages/StudentDashboard.tsx:94-103 | one more lesson adds 1 to the total, 1 to upcoming or completed when it qualifies, and its price to money spent |
| StudentDashboard.StatusBadge | src/pages/StudentDashboard.tsx:116-124 | confirmed→default, completed→outline, cancelled→destructive, in both directions; pending and any unknown status→secondary |
| StudentDashboard.CardBadge | src/pages/StudentDashboard.tsx:255 | the badge of the status, or of the tab's fallback when the status is missing |
| StudentDashboard.MissingStatusBadges | src/pages/StudentDashboard.tsx:303 | a missing status shows as pending on the upcoming tab and as completed on the past tab |
| StudentDashboard.ShowsJoin | src/pages/StudentDashboard.tsx:256 | Join is shown iff the meeting link is non-empty and the status is confirmed |
| StudentDashboard.JoinableIsConfirmed | src/pages/StudentDashboard.tsx:255-256 | a card with a Join button carries the confirmed badge |
| StudentDashboard.Dashboard.constructor | src/pages/StudentDashboard.tsx:98-103 | no lessons, zero figures, loading |
| StudentDashboard.Dashboard.FetchLessons | src/pages/StudentDashboard.tsx:70-105 | on success the lessons and `ComputeStats` of them replace the state; on error both stay; loading stops either way |
| ParentDashboard.BirthdaysInOrder | src/pages/ParentDashboard.tsx:189-193 | a later birthday is reached only if an earlier one is |
| ParentDashboard.BirthdayReached | src/pages/ParentDashboard.tsx:189-193 | a birthday in an earlier year is reached, one in a later year is not, and the birthday itself counts as reached |
| ParentDashboard.ChildAge | src/pages/ParentDashboard.tsx:185-195 | null iff the date of birth is null or empty; otherwise the age is a number of years whose birthday is reached and whose next birthday is not |
| ParentDashboard.AgeUnique | src/pages/ParentDashboard.tsx:189-194 | only one number of years satisfies that condition, so the age is the count of birthdays passed |
| ParentDashboard.AgeNotNegative | src/pages/ParentDashboard.tsx:189-194 | a child born on or before today has a non-negative age |
| ParentDashboard.ChildLessons | src/pages/ParentDashboard.tsx:197-199 | exactly the lessons whose child id is the child's, in order |
| ParentDashboard.ChildLessonsDisjoint | src/pages/ParentDashboard.tsx:197-199 | no lesson belongs to two children |
| ParentDashboard.ChildUpcomingCommutes | src/pages/ParentDashboard.tsx:303-304 | filtering a child's lessons to upcoming ones equals filtering upcoming lessons to the child's |
| ParentDashboard.ChildCompletedCommutes | src/pages/ParentDashboard.tsx:303-305 | the same for completed lessons |
| ParentDashboard.RecentLessons | src/pages/ParentDashboard.tsx:363 | every lesson when there are at most five, otherwise the first five in order |
| ParentDashboard.RecentBadge | src/pages/ParentDashboard.tsx:378-382 | completed→default, cancelled→destructive, anything else→secondary; never outline |
| ParentDashboard.FindChild | src/pages/ParentDashboard.tsx:364 | the child found has the lesson's child id; none iff no child has it |
| ParentDashboard.NullIfEmpty | src/pages/ParentDashboard.tsx:122-123 | null iff the text is empty, otherwise the text |
| ParentDashboard.SaveWrite | src/pages/ParentDashboard.tsx:108-142 | nothing for a blank name; otherwise an update of the child being edited iff one is, else an insert for the parent; name untrimmed; empty date of birth and notes become null |
| ParentDashboard.EditThenSaveWritesBack | src/pages/ParentDashboard.tsx:158-164 | editing a child and saving untouched writes the child's own values back |
| ParentDashboard.Dashboard.constructor | src/pages/ParentDashboard.tsx:225-233 | no children or lessons; dialog closed and reset |
| ParentDashboard.Dashboard.LoadData | src/pages/ParentDashboard.tsx:69-105 | a failed children query changes nothing; otherwise children are replaced; lessons are replaced only when there are children and their query succeeded |
| ParentDashboard.Dashboard.EditChild | src/pages/ParentDashboard.tsx:158-164 | opens the dialog on the child, with null texts shown empty |
| ParentDashboard.Dashboard.OpenDialog | src/pages/ParentDashboard.tsx:225-226 | the dialog is open |
| ParentDashboard.Dashboard.CloseDialog | src/pages/ParentDashboard.tsx:225-233 | closing clears the fields and the child being edited |
| ParentDashboard.Dashboard.Save | src/pages/ParentDashboard.tsx:108-156 | sends `SaveWrite` of the fields; a save that went through resets and closes the dialog; a blank name or a refused write leaves it unchanged |
| TeacherDetail.LessonPrice | src/pages/TeacherDetail.tsx:140 | price × 60 = hourly rate × minutes |
| TeacherDetail.OfferedDurationPrices | src/pages/TeacherDetail.tsx:411-414 | the four durations cost 0.5, 1, 1.5 and 2 hourly rates; the preselected duration is among them |
| TeacherDetail.PriceMonotone | src/pages/TeacherDetail.tsx:140 | at a non-negative rate a longer lesson never costs less |
| TeacherDetail.SlotTime | src/pages/TeacherDetail.tsx:136-138 | defined iff the pieces before and after the first colon both parse; then the hour and minute are those parses |
| TeacherDetail.SplitSlot | src/pages/TeacherDetail.tsx:137 | an `HH:00` slot splits into its two hour digits and "00" |
| TeacherDetail.ParseTwoDigits | src/pages/TeacherDetail.tsx:138 | two digits parse to their value; "00" to 0 |
| TeacherDetail.HourSlot | src/pages/TeacherDetail.tsx:136-138 | an `HH:00` slot reads as hour HH, minute 0 |
| TeacherDetail.SlotShapes | src/pages/TeacherDetail.tsx:165-168 | each offered slot is two digits, a colon and "00", and slot i shows hour 9+i |
| TeacherDetail.SlotsAreWholeHours | src/pages/TeacherDetail.tsx:165-168 | slot i reads as (9+i, 0) for every offered slot |
| TeacherDetail.ScheduledAt | src/pages/TeacherDetail.tsx:136-138 | defined iff the slot parses; then the chosen day at the slot's hour and minute, with seconds and milliseconds 0 |
| TeacherDetail.TodayNotSelectable | src/pages/TeacherDetail.tsx:428 | once today's midnight has passed, today is disabled in the picker |
| TeacherDetail.Selectable | src/pages/TeacherDetail.tsx:428 | a day is offered iff it is now or later |
| Calendar.AtTime | src/pages/TeacherDetail.tsx:138 | `setHours(h, m, 0, 0)`: the same day at the given hour and minute, seconds and milliseconds zero |
| TeacherDetail.LessonTypeChoices | src/pages/TeacherDetail.tsx:391-396 | `online` offered iff online-available, `in_person` iff in-person-available, nothing else |
| TeacherDetail.BookLesson | src/pages/TeacherDetail.tsx:120-152 | login required iff no user; missing fields iff date, time or instrument is absent; otherwise a pending lesson with the pro-rata price, the composed start, and empty notes as null |
| TeacherDetail.BookingAtOfferedSlot | src/pages/TeacherDetail.tsx:120-168 | a complete booking at the i-th slot on a selectable day inserts a lesson at hour 9+i that lies after now |
| Gigs.PriceValue | src/pages/Gigs.tsx:84-86 | a null price counts as 0 |
| Gigs.FilteredProfiles | src/pages/Gigs.tsx:76-89 | a profile is kept iff search, type and price all match; the result is an order-preserving subsequence |
| Gigs.MatchesSearch | src/pages/Gigs.tsx:77-78 | an empty query matches every profile; a profile without genres matches only through its stage name |
| Gigs.MatchesType | src/pages/Gigs.tsx:80-81 | "All Types" matches every profile; a profile without a type matches nothing else |
| Gigs.MatchesPrice | src/pages/Gigs.tsx:83-86 | a choice other than the three buckets admits every profile; a null base price falls in "under5k" only |
| Gigs.Matches | src/pages/Gigs.tsx:76-89 | the initial filters match every profile; a specific type matches only a typed profile |
| Gigs.PriceBucketsPartition | src/pages/Gigs.tsx:83-86 | every base price falls in exactly one of under5k, 5k-15k, over15k |
| Gigs.InitialFiltersShowAll | src/pages/Gigs.tsx:52-55 | with the initial empty query, all types and all prices, the whole list is shown in order |
| Gigs.EnsembleMatchesNoOnboardedType | src/pages/Gigs.tsx:80-81 | the "Ensemble" choice matches none of the types performers can pick at onboarding |
| Gigs.ChoicesMatchOnboardedTypes | src/pages/Gigs.tsx:80-81 | "Solo", "Duo" and "Band" match the onboarding types `solo`, `duo` and `band` ignoring case |
| GigDetail.CalculateTotal | src/pages/GigDetail.tsx:97-100 | 0 without a gig; otherwise total − base price = hourly price × hours, nulls as 0 |
| GigDetail.TotalStep | src/pages/GigDetail.tsx:99 | each extra hour adds the hourly price once |
| GigDetail.TotalMonotone | src/pages/GigDetail.tsx:99 | at a non-negative hourly price the total is non-decreasing in hours |
| GigDetail.BookGig | src/pages/GigDetail.tsx:102-128 | login required iff no user; missing fields iff date, event type, venue or location is empty; otherwise a pending booking with every field, `total_price = calculateTotal()`, empty requests as null |
| GigDetail.RequestQuotesTotal | src/pages/GigDetail.tsx:62 | the preselected two hours are among the offered durations and are quoted as base + 2 × hourly |
| GigOnboarding.ToggledGenres | src/pages/GigOnboarding.tsx:53-61 | removes a present genre; appends an absent one iff fewer than five are chosen, otherwise no change; no other genre's membership changes |
| GigOnboarding.ToggledGenresKeepsBound | src/pages/GigOnboarding.tsx:53-61 | at most five distinct genres stay at most five distinct genres |
| GigOnboarding.TrimmedOrNull | src/pages/GigOnboarding.tsx:121 | null iff the text is blank, otherwise the trimmed text |
| GigOnboarding.NonBlank | src/pages/GigOnboarding.tsx:115-116 | exactly the non-blank links, each as many times as it was entered, as an order-preserving subsequence |
| GigOnboarding.Submit | src/pages/GigOnboarding.tsx:95-132 | refusals in source order (no user, blank stage name, no genres); otherwise the row with trimmed texts, non-blank links, prices parsed with a fallback to the default on NaN or 0 (so never 0), available |
| GigOnboarding.PresetSavesLikeEmpty | src/pages/GigOnboarding.tsx:125-126 | a price field holding the decimal text of its positive default inserts what an emptied field inserts: the default |
| GigOnboarding.PresetPricesSaveDefaults | src/pages/GigOnboarding.tsx:46-47 | the preset "5000" and "2000" are the defaults' decimal texts, so an untouched and an emptied price field insert the same price |
| GigOnboarding.EmptyPriceFallsBack | src/pages/GigOnboarding.tsx:125-126 | an empty or "0" price field inserts the default |
| GigOnboarding.LeavesForm | src/pages/GigOnboarding.tsx:134-145 | the page leaves the form iff the insert succeeded or failed with code 23505 |
| GigOnboarding.Form.constructor | src/pages/GigOnboarding.tsx:37-51 | step 1, empty fields, type solo, prices "5000" and "2000", one empty link of each kind |
| GigOnboarding.Form.ToggleGenre | src/pages/GigOnboarding.tsx:53-61 | applies `ToggledGenres` and keeps the invariant; the warning iff a sixth genre was refused |
| GigOnboarding.Form.AddVideoUrl | src/pages/GigOnboarding.tsx:63-67 | appends an empty link iff fewer than five; keeps 1..5 links |
| GigOnboarding.Form.RemoveVideoUrl | src/pages/GigOnboarding.tsx:69-71 | drops exactly index i and keeps the others in order |
| GigOnboarding.Form.UpdateVideoUrl | src/pages/GigOnboarding.tsx:73-77 | changes only index i |
| GigOnboarding.Form.AddAudioUrl | src/pages/GigOnboarding.tsx:79-83 | appends an empty link iff fewer than five; keeps 1..5 links |
| GigOnboarding.Form.RemoveAudioUrl | src/pages/GigOnboarding.tsx:85-87 | drops exactly index i and keeps the others in order |
| GigOnboarding.Form.UpdateAudioUrl | src/pages/GigOnboarding.tsx:89-93 | changes only index i |
| GigOnboarding.Form.Next | src/pages/GigOnboarding.tsx:295-296 | leaves step 1 only with a non-blank stage name and a genre; step 2 goes to 3 |
| GigOnboarding.Form.Back | src/pages/GigOnboarding.tsx:413 | one step back, never below 1 |
| GigOnboarding.Form.HandleSubmit | src/pages/GigOnboarding.tsx:95-132 | submits `Submit` of the current fields |
| GigOnboarding.PastFirstStepSubmits | src/pages/GigOnboarding.tsx:102-110 | fields that pass step 1 give an insert for a signed-in performer |
| TeacherOnboarding.FindByName | src/pages/TeacherOnboarding.tsx:198-200 | the first catalogue entry equal to the name ignoring case; none iff there is no such entry |
| TeacherOnboarding.LinkWrites | src/pages/TeacherOnboarding.tsx:195-217 | at most one insert per name, all for this teacher |
| TeacherOnboarding.LinkWritesAdd | src/pages/TeacherOnboarding.tsx:195-217 | after the inserts, an id is linked iff it was before or some name finds it |
| TeacherOnboarding.ErrorMessage | src/pages/TeacherOnboarding.tsx:222 | the error's message, or the fallback when it is empty; never empty |
| TeacherOnboarding.SubmitOutcome | src/pages/TeacherOnboarding.tsx:144-226 | session error iff an id is missing; no instruments iff the selection is empty; a failed profile update reports that error's message (or the fallback) after the profile write alone; a failed teacher update reports its message after the profile and teacher writes; otherwise profile update, teacher update (for the teacher id, with the rate parsed, 500 on NaN or 0, the experience parsed, 0 on NaN or 0, and the style and both availability flags as entered), delete all, then the link inserts |
| TeacherOnboarding.SavedLinksAreSelection | src/pages/TeacherOnboarding.tsx:189-217 | after a save the teacher teaches exactly the catalogue instruments some selected name finds, whatever was linked before |
| TeacherOnboarding.LoadedRateSaved | src/pages/TeacherOnboarding.tsx:94 | a loaded rate shown as text is saved unchanged, except 0, which becomes 500 |
| TeacherOnboarding.WithPersonal | src/pages/TeacherOnboarding.tsx:78-83 | null texts load as empty, other fields untouched |
| TeacherOnboarding.WithTeacher | src/pages/TeacherOnboarding.tsx:92-99 | rate and experience load as text that parses back to them (null experience as empty); null flags load as on |
| TeacherOnboarding.Form.constructor | src/pages/TeacherOnboarding.tsx:36-41 | empty fields, both flags on, nothing selected |
| TeacherOnboarding.Form.Load | src/pages/TeacherOnboarding.tsx:47-127 | nothing without a user; a non-teacher only records the user id; a teacher gets the rows loaded into the form, and the lists replaced when their queries returned rows |
| TeacherOnboarding.Form.ToggleInstrument | src/pages/TeacherOnboarding.tsx:129-135 | applies `Toggle` and keeps the selection duplicate-free |
| TeacherOnboarding.Form.AddCustomInstrument | src/pages/TeacherOnboarding.tsx:137-142 | appends the trimmed name and clears the box iff it is non-empty and not selected; otherwise nothing changes |
| TeacherOnboarding.Form.HandleSubmit | src/pages/TeacherOnboarding.tsx:144-226 | the loop's writes equal `SubmitOutcome` |
| Teachers.ProfileFor | src/pages/Teachers.tsx:118 | the profile found has the user's id; none iff no profile has it |
| Teachers.Merge | src/pages/Teachers.tsx:116-119 | every teacher is paired with `ProfileFor` of its user; the other fields are unchanged |
| Teachers.FilteredTeachers | src/pages/Teachers.tsx:126-163 | a teacher is shown iff it passes every check; the result is an order-preserving subsequence |
| Teachers.Passes | src/pages/Teachers.tsx:126-163 | a shown teacher has a profile and a rate within the range, a rating at least a positive minimum, and the chosen instrument |
| Teachers.InactiveMeansDefault | src/pages/Teachers.tsx:165-173 | within the controls' range, no filter is active iff all are at their reset values |
| Teachers.HasActiveFilters | src/pages/Teachers.tsx:173 | the reset filters are inactive; inactive filters have no query, instrument or location, and within the controls' range are the reset ones |
| Teachers.InControlRange | src/pages/Teachers.tsx:244-263 | the reset filters are within the controls' range, whose minimum rating is never negative |
| Teachers.DefaultFiltersShow | src/pages/Teachers.tsx:126-173 | with reset filters a teacher is shown iff it has a profile and 0 ≤ rate ≤ 10000 |
| Teachers.ShownMatchesQuery | src/pages/Teachers.tsx:131-136 | a teacher shown for a query has it, ignoring case, in the name or bio |
| Teachers.UnmatchedTeacherHidden | src/pages/Teachers.tsx:116-128 | a teacher whose user has no profile row is never shown |
| Teachers.NarrowingQuery | src/pages/Teachers.tsx:131-136 | a teacher passing a query also passes any substring of it |
| Teachers.Search.constructor | src/pages/Teachers.tsx:51-55 | the filters start at their reset values |
| Teachers.Search.ClearFilters | src/pages/Teachers.tsx:165-171 | resets the filters, after which none is active |
| Teachers.CardInstruments | src/pages/Teachers.tsx:319-322 | the first three present names in order (all of them when there are at most three); "+n" iff there are more than three rows, with n + 3 rows |
| Navbar.BadgeLabel | src/components/Navbar.tsx:118-121 | hidden iff the count is ≤ 0; the decimal count for 1..9; "9+" above |
| Navbar.BadgeLabelReadsBack | src/components/Navbar.tsx:118-121 | a badge is at most two characters, and for 1..9 it parses back to the count |
| Navbar.BadgeLabelDistinguishes | src/components/Navbar.tsx:120 | counts above nine look alike; distinct counts up to nine never do |
| Navbar.UnreadCounter.constructor | src/components/Navbar.tsx:22-25 | no user, count 0 |
| Navbar.UnreadCounter.SetUser | src/components/Navbar.tsx:21-39 | without a user the count drops to 0 |
| Navbar.UnreadCounter.FetchUnreadCount | src/components/Navbar.tsx:28-37 | the count becomes the query's count, or 0 for null, so it is never negative |
| Navbar.UnreadCounter.OnInsert | src/components/Navbar.tsx:51-67 | +1 iff the sender is someone else and the conversation includes the user; otherwise unchanged |
| Chat.ParticipantPair | src/components/ChatDialog.tsx:79 | the two ids in string order (code point order) |
| Chat.ParticipantPairSymmetric | src/components/ChatDialog.tsx:79 | (a, b) and (b, a) give the same pair |
| Chat.OtherParticipant | src/pages/Messages.tsx:107 | participant two when the user is participant one, otherwise participant one |
| Chat.OtherOfCreatedPair | src/pages/Messages.tsx:107 | in a pair the dialog created, the messages page shows the user the recipient |
| Chat.Send | src/components/ChatDialog.tsx:132-143 | nothing iff the input is blank or there is no conversation or user; otherwise the trimmed input, from the user, into the conversation |
| Chat.InputAfterSend | src/components/ChatDialog.tsx:136-149 | unchanged when nothing was sent; cleared on success; the trimmed content restored on error |
| Chat.RetryResends | src/components/ChatDialog.tsx:148 | retrying the restored text sends the same message |
| Chat.SendsOnKey | src/pages/Messages.tsx:171-176 | Enter without Shift sends, and no other key does |
| ChatDialog.Resolved | src/components/ChatDialog.tsx:88-112 | a failed lookup gives none; an existing conversation is reused; otherwise the created one |
| ChatDialog.Dialog.constructor | src/components/ChatDialog.tsx:74-130 | no conversation, no messages, empty input |
| ChatDialog.Dialog.LoadOrCreate | src/components/ChatDialog.tsx:74-130 | nothing without a user; inserts the sorted pair iff the lookup found none; sets the conversation and messages as resolved; a lookup or create error leaves the conversation and messages as they were |
| ChatDialog.Dialog.SendMessage | src/components/ChatDialog.tsx:132-152 | sends `Send` of the input; the input becomes `InputAfterSend` |
| ChatDialog.Dialog.OnInsert | src/components/ChatDialog.tsx:55-58 | appends the message; earlier messages unchanged |
| Messages.Summarize | src/pages/Messages.tsx:123-127 | a missing profile shows "Unknown User" under the other participant's id; a missing or empty last message shows "No messages yet" |
| Messages.Summaries | src/pages/Messages.tsx:105-129 | one summary per conversation, in order |
| Messages.SummaryShowsOtherUser | src/pages/Messages.tsx:107-126 | the list shows the other user of each conversation, with a non-empty preview |
| Messages.Page.constructor | src/pages/Messages.tsx:87-133 | no conversations, nothing selected, no messages, empty input |
| Messages.Page.LoadConversations | src/pages/Messages.tsx:87-133 | nothing without a user or on error; otherwise the list is `Summaries` of the rows |
| Messages.Page.Select | src/pages/Messages.tsx:134-147 | selects the conversation; its messages replace the list unless their query failed |
| Messages.Page.Deselect | src/pages/Messages.tsx:247 | no conversation is selected |
| Messages.Page.SendMessage | src/pages/Messages.tsx:149-169 | sends `Send` for the selected conversation; the input becomes `InputAfterSend` |
| Messages.Page.OnInsert | src/pages/Messages.tsx:75-78 | appends the message; earlier messages unchanged |
| Auth.PasswordError | src/pages/Auth.tsx:15 | valid iff at least six characters, else its message |
| Auth.NameError | src/pages/Auth.tsx:16 | valid iff 2..100 characters, with the too-short and too-long messages |
| Auth.RateError | src/pages/Auth.tsx:17 | valid iff a number in 100..100000; NaN, too low and too high each give their message |
| Auth.FirstError | src/pages/Auth.tsx:74-87 | the first failing check is reported |
| Auth.LoginError | src/pages/Auth.tsx:43-52 | valid iff the email is valid and the password long enough; the email is checked first |
| Auth.SignUpError | src/pages/Auth.tsx:74-87 | valid iff email, password and name are valid and, for a teacher only, the rate; reported in that order |
| Auth.StudentRateIgnored | src/pages/Auth.tsx:78-80 | a student's rate never affects validation |
| Auth.SignUpMetadata | src/pages/Auth.tsx:89-91 | name and role always; the hourly rate iff the role is teacher |
| Auth.FriendlyLoginMessage | src/pages/Auth.tsx:57-60 | text containing "Invalid login credentials" becomes the fixed sentence; other text passes unchanged |
| Auth.FriendlySignUpMessage | src/pages/Auth.tsx:96-99 | text containing "already registered" becomes the fixed sentence; other text passes unchanged |
| Auth.FriendlyLoginMessageIdempotent | src/pages/Auth.tsx:57-60 | rewording twice is rewording once |
| Auth.NoBadCredentialsInText | src/pages/Auth.tsx:59 | the friendly sentence does not itself contain "Invalid login credentials" |
| Auth.Login | src/pages/Auth.tsx:39-68 | invalid iff validation fails (no call is made); failed iff the call errors, with the reworded text; success goes to "/" |
| Auth.SignUpRequest | src/pages/Auth.tsx:74-93 | a call is made iff validation passes, with metadata holding the rate iff teacher |
| Auth.SignUp | src/pages/Auth.tsx:70-115 | invalid iff validation fails; failed with reworded text iff the call errors; on success only a teacher is sent to onboarding |
| Auth.InvalidFormIgnoresService | src/pages/Auth.tsx:74-87 | with an invalid form the outcome does not depend on the service's answer |
| Text.Lower | src/pages/Teachers.tsx:132 | same length, each character lower-cased (ASCII) |
| Text.LowerIdempotent | src/pages/Teachers.tsx:132-134 | lower-casing twice is lower-casing once |
| Text.ContainsTransitive | src/pages/Teachers.tsx:133-134 | a substring of a substring is a substring |
| Text.Trim | src/pages/GigOnboarding.tsx:102 | a slice of the input with only white space cut off before and after it, itself without white space at either end, and empty iff the input is all white space |
| Text.TrimIdempotent | src/components/ChatDialog.tsx:136 | trimming twice is trimming once |
| Text.Split | src/pages/TeacherDetail.tsx:137 | at least one piece, none containing the separator |
| Text.SplitJoin | src/pages/TeacherDetail.tsx:137 | joining the pieces with the separator gives the input back |
| Text.IntOr | src/pages/GigOnboarding.tsx:125-126 | NaN and 0 give the default; any other parsed value is kept |
| Text.DecimalRoundTrip | src/components/Navbar.tsx:120 | the decimal text of a natural number parses back to it |
| Text.IntToStringRoundTrip | src/pages/TeacherOnboarding.tsx:94 | `parseInt(n.toString())` is n for every integer |
| Text.StringLessTotal | src/components/ChatDialog.tsx:79 | string order is total and asymmetric |
| Text.PresentStrings | src/pages/TeacherOnboarding.tsx:119-121 | `.filter(Boolean)`: exactly the present non-empty names, each as many times as it occurs |
| Text.PresentStringsConcat | src/pages/Teachers.tsx:319-321 | the present names of two lists one after the other are those of the first followed by those of the second, so the order of the entries is kept |
| Lists.Filter | src/pages/Teachers.tsx:126 | the elements that pass, each as many times as it occurs, as an order-preserving subsequence |
| Lists.FilterCommute | src/pages/ParentDashboard.tsx:303-305 | two filters commute |
| Lists.Toggle | src/pages/TeacherOnboarding.tsx:129-135 | the toggled element's membership flips; no other element's changes |
| Lists.ToggleTwice | src/pages/TeacherDashboard.tsx:175-195 | toggling twice restores membership, and the list itself when the element was absent |
| Lists.ToggleNoDuplicates | src/pages/TeacherOnboarding.tsx:129-135 | toggling keeps a list duplicate-free |
| Lists.RemoveAt | src/pages/GigOnboarding.tsx:70 | `filter((_, j) => j !== i)` drops exactly index i |
| Lists.Take | src/pages/ParentDashboard.tsx:363 | `slice(0, n)`: a prefix of length min(n, length) |

## Left out

- Every database and authentication call is replaced by a parameter carrying its answer. This covers select, insert, update, delete, `.single()`, `maybeSingle()`, server-side `order` and `limit(20)`, and the `Promise.all` fan-out. The model does not capture server-side ordering or the contents of joined rows (student, teacher and instrument names, avatars).
- The realtime channels are not modelled: subscription, teardown and delivery order. Only the callbacks' effects on local state are modelled.
- Concurrency between overlapping asynchronous handlers is not modelled. For example, a fetch may finish after the user has changed.
- Each page's loading, saving, sending and booking flags are not modelled, except where a method's contract names them. Neither are toasts, `navigate(...)` (except the route after sign-up), scroll-to-bottom effects or rendering.
- Auth: the email format check delegates to zod's regular expression and is a boolean parameter.
- Auth: the rate field's `Number(...)` conversion is an `Option<real>`, with `None` for `NaN`.
- Auth and Chat.ParticipantPair: string lengths count, and string order compares, code points rather than UTF-16 code units, so the order differs from `sort()` only between a character above U+FFFF and one in U+E000..U+FFFF; participant ids are UUIDs, which hold neither, so the stored pair is unaffected.
- Floating point: prices and ratings are exact reals or integers, so rounding of `hourly_rate * (duration / 60)` and `toLocaleString` are left out.
- `parseInt` is exact on arbitrarily long digit runs. JavaScript loses precision above 2^53.
- `Date`: parsing, time zones, `setHours` overflow into the next day, `toISOString` and `format` are not modelled. Dates are 7-field tuples compared lexicographically. The age calculation takes the parsed birth date as a parameter.
- TeacherDashboard: the number inputs of the settings form (`Number(e.target.value)`) are not modelled. The form's values are taken as the numbers they hold.
- TeacherDashboard: the full instrument catalogue load is not modelled. It only feeds the chips.
- ParentDashboard: `handleDeleteChild` is left out. It is a confirm dialog and a delete call followed by a reload, with no local logic.
- ParentDashboard: the reload after a successful save is left out. It is `LoadData` again.
- Gigs: the event-type select is left out. Its value never takes part in the filter.
- StudentDashboard: the status badge looks up a JavaScript object, so a status named like an `Object.prototype` member (for example `constructor`) would not reach the fallback. Such statuses are treated as unknown.
- Lessons: a null `status` is the empty string. Every comparison the pages make treats it the same way.
- The Zoom meeting edge function, the generated database types and the presentational components are not part of this model. The components left out include the footer, the landing-page sections, the cards, and the routing table.

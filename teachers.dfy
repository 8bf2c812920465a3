/** The teacher directory: teachers joined with their personal profiles, the
    search and filter panel, and the instrument badges on each card. */
module Teachers {
  import opened Text
  import opened Lists

  /** The columns of `profiles` the directory reads. */
  datatype Profile = Profile(
    id: string,
    fullName: string,
    avatarUrl: Option<string>,
    location: Option<string>,
    bio: Option<string>)

  /** A `teacher_instruments` row with the joined instrument's name, if any. */
  datatype TeacherInstrument = TeacherInstrument(instrumentId: string, name: Option<string>)

  /** A teacher as listed: the `teacher_profiles` columns used, the joined
      instruments, and the merged personal profile (null when none matched). */
  datatype Teacher = Teacher(
    id: string,
    userId: string,
    hourlyRate: int,
    rating: Option<real>,
    instruments: seq<TeacherInstrument>,
    profile: Option<Profile>)

  /** The first profile whose id is the user id, or `None`. */
  function ProfileFor(profiles: seq<Profile>, userId: string): (r: Option<Profile>)
    ensures r.Some? ==> r.value in profiles && r.value.id == userId
    ensures r.None? <==> forall i :: 0 <= i < |profiles| ==> profiles[i].id != userId
  {
    if profiles == [] then None
    else if profiles[0].id == userId then Some(profiles[0])
    else
      var r := ProfileFor(profiles[1..], userId);
      assert r.None? ==> forall i :: 0 <= i < |profiles| ==> profiles[i].id != userId by {
        if r.None? {
          forall i | 0 <= i < |profiles|
            ensures profiles[i].id != userId
          {
            if i > 0 { assert profiles[i] == profiles[1..][i - 1]; }
          }
        }
      }
      r
  }

  /** Every teacher paired with the profile of its user, or with none. */
  function Merge(teachers: seq<Teacher>, profiles: seq<Profile>): (r: seq<Teacher>)
    ensures |r| == |teachers|
    ensures forall i :: 0 <= i < |r| ==>
      r[i].profile == ProfileFor(profiles, teachers[i].userId) &&
      r[i].(profile := teachers[i].profile) == teachers[i]
  {
    if teachers == [] then []
    else [teachers[0].(profile := ProfileFor(profiles, teachers[0].userId))] + Merge(teachers[1..], profiles)
  }

  /** The filter panel's values. */
  datatype Filters = Filters(
    searchQuery: string,
    instrument: string,
    location: string,
    priceMin: int,
    priceMax: int,
    minRating: real)

  /** The slider's bounds. */
  const PriceFloor := 0
  const PriceCeiling := 10000

  const DefaultFilters := Filters("", "all", "", PriceFloor, PriceCeiling, 0.0)

  /** The values the controls can produce: the price handles within the
      slider's bounds, the rating one of 0, 3, 4 and 4.5. */
  function InControlRange(f: Filters): (b: bool)
    ensures f == DefaultFilters ==> b
    ensures b ==> f.minRating >= 0.0
  {
    PriceFloor <= f.priceMin && f.priceMax <= PriceCeiling &&
    f.minRating in {0.0, 3.0, 4.0, 4.5}
  }

  predicate HasInstrument(t: Teacher, instrumentId: string) {
    exists i :: 0 <= i < |t.instruments| && t.instruments[i].instrumentId == instrumentId
  }

  /** The directory's test, check by check: a teacher without a profile is
      hidden; a non-empty query must occur, ignoring case, in the name or the
      bio; an instrument other than "all" must be taught; a non-empty location
      must occur, ignoring case, in the profile's location; the rate must lie
      within the price range; and a positive minimum rating must be reached,
      a missing rating counting as 0. */
  function Passes(t: Teacher, f: Filters): (b: bool)
    ensures b ==> t.profile.Some? && f.priceMin <= t.hourlyRate <= f.priceMax
    ensures b && f.minRating > 0.0 ==> t.rating.Some? && t.rating.value >= f.minRating
    ensures b && f.instrument != "" && f.instrument != "all" ==>
      exists i :: 0 <= i < |t.instruments| && t.instruments[i].instrumentId == f.instrument
  {
    t.profile.Some? &&
    (f.searchQuery == "" ||
      Contains(Lower(t.profile.value.fullName), Lower(f.searchQuery)) ||
      (t.profile.value.bio.Some? && Contains(Lower(t.profile.value.bio.value), Lower(f.searchQuery)))) &&
    (f.instrument == "" || f.instrument == "all" || HasInstrument(t, f.instrument)) &&
    (f.location == "" || Contains(Lower(OrElse(t.profile.value.location, "")), Lower(f.location))) &&
    !(t.hourlyRate < f.priceMin || t.hourlyRate > f.priceMax) &&
    !(f.minRating > 0.0 && OrElse(t.rating, 0.0) < f.minRating)
  }

  /** The teachers shown, in the listed order. */
  function FilteredTeachers(ts: seq<Teacher>, f: Filters): (r: seq<Teacher>)
    ensures forall t :: t in r <==> t in ts && Passes(t, f)
    ensures IsSubsequence(r, ts)
  {
    Filter(ts, t => Passes(t, f))
  }

  /** The "Clear filters" link shows when any filter differs from its reset value. */
  function HasActiveFilters(f: Filters): (b: bool)
    ensures !b ==> f.searchQuery == "" && f.instrument == "all" && f.location == ""
    ensures !b && InControlRange(f) ==> f == DefaultFilters
    ensures f == DefaultFilters ==> !b
  {
    f.searchQuery != "" || f.instrument != "all" || f.location != "" ||
    f.priceMin > PriceFloor || f.priceMax < PriceCeiling || f.minRating > 0.0
  }

  /** Within the controls' range, no filter is active exactly when all are at
      their reset values. */
  lemma InactiveMeansDefault(f: Filters)
    requires InControlRange(f)
    ensures !HasActiveFilters(f) <==> f == DefaultFilters
  {
  }

  /** With the filters reset a teacher is shown exactly when it has a profile
      and a rate between 0 and 10000. */
  lemma DefaultFiltersShow(t: Teacher)
    ensures Passes(t, DefaultFilters) <==>
            t.profile.Some? && PriceFloor <= t.hourlyRate <= PriceCeiling
  {
  }

  /** A teacher shown while a query is typed has the query in its name or bio. */
  lemma ShownMatchesQuery(ts: seq<Teacher>, f: Filters, t: Teacher)
    requires t in FilteredTeachers(ts, f) && f.searchQuery != ""
    ensures Contains(Lower(t.profile.value.fullName), Lower(f.searchQuery)) ||
            (t.profile.value.bio.Some? && Contains(Lower(t.profile.value.bio.value), Lower(f.searchQuery)))
  {
  }

  /** A teacher whose user has no profile row is never shown, whatever the filters. */
  lemma UnmatchedTeacherHidden(teachers: seq<Teacher>, profiles: seq<Profile>, f: Filters, i: int)
    requires 0 <= i < |teachers|
    requires forall j :: 0 <= j < |profiles| ==> profiles[j].id != teachers[i].userId
    ensures Merge(teachers, profiles)[i] !in FilteredTeachers(Merge(teachers, profiles), f)
  {
  }

  /** Typing a longer query never shows more teachers: a teacher passing a
      query that includes `q` passes `q` too. */
  lemma NarrowingQuery(t: Teacher, f: Filters, q: string)
    requires Passes(t, f) && f.searchQuery != "" && Contains(Lower(f.searchQuery), Lower(q))
    ensures Passes(t, f.(searchQuery := q))
  {
    var p := t.profile.value;
    if q != "" {
      if Contains(Lower(p.fullName), Lower(f.searchQuery)) {
        ContainsTransitive(Lower(p.fullName), Lower(f.searchQuery), Lower(q));
      } else {
        ContainsTransitive(Lower(p.bio.value), Lower(f.searchQuery), Lower(q));
      }
    }
  }

  /** The filter state, which "Clear filters" resets. */
  class Search {
    var filters: Filters

    constructor ()
      ensures filters == DefaultFilters
    {
      filters := DefaultFilters;
    }

    method ClearFilters()
      modifies this
      ensures filters == DefaultFilters && !HasActiveFilters(filters)
    {
      filters := DefaultFilters;
    }
  }

  /** A card's instrument badges: the first three non-empty instrument names,
      and a "+n" badge when the teacher has more than three instrument rows,
      counting rows without a name. */
  datatype CardBadges = CardBadges(names: seq<string>, more: Option<int>)

  /** The instrument names of the rows, nulls and empty names dropped, in row order. */
  function InstrumentNames(tis: seq<TeacherInstrument>): seq<string> {
    PresentStrings(seq(|tis|, i requires 0 <= i < |tis| => tis[i].name))
  }

  function CardInstruments(tis: seq<TeacherInstrument>): (c: CardBadges)
    ensures |c.names| <= 3
    ensures |InstrumentNames(tis)| <= 3 ==> c.names == InstrumentNames(tis)
    ensures |InstrumentNames(tis)| > 3 ==> c.names == InstrumentNames(tis)[..3]
    ensures forall n :: n in c.names ==> n != ""
    ensures c.more.Some? <==> |tis| > 3
    ensures c.more.Some? ==> c.more.value > 0 && c.more.value + 3 == |tis|
  {
    var names := InstrumentNames(tis);
    var shown := Take(names, 3);
    CardBadges(shown, if |tis| > 3 then Some(|tis| - 3) else None)
  }
}

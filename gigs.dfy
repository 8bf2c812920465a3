/** The performer directory: gig profiles and the search, type and price
    filters over them. */
module Gigs {
  import opened Text
  import opened Lists

  /** A row of `gig_profiles` with the columns the directory and the detail
      page read. A null `genres` is the empty list; a null price stays
      `None` and counts as 0 wherever JavaScript does arithmetic or a
      comparison with it. */
  datatype GigProfile = GigProfile(
    id: string,
    userId: string,
    stageName: string,
    performerType: Option<string>,
    genres: seq<string>,
    basePrice: Option<int>,
    pricePerHour: Option<int>)

  /** The number JavaScript uses for a nullable price column. */
  function PriceValue(p: Option<int>): (v: int)
    ensures p.None? ==> v == 0
    ensures p.Some? ==> v == p.value
  {
    OrElse(p, 0)
  }

  /** The choices of the performer type filter. */
  const PerformerTypes: seq<string> := ["All Types", "Solo", "Duo", "Band", "Ensemble"]
  const AllTypes := "All Types"

  /** The choices of the price filter. */
  const PriceRanges: seq<string> := ["all", "under5k", "5k-15k", "over15k"]

  /** The query occurs, ignoring case, in the stage name or in some genre. */
  function MatchesSearch(p: GigProfile, query: string): (b: bool)
    ensures query == "" ==> b
    ensures b && p.genres == [] ==> Contains(Lower(p.stageName), Lower(query))
  {
    ContainsEmpty(Lower(p.stageName));
    Contains(Lower(p.stageName), Lower(query)) ||
    exists i :: 0 <= i < |p.genres| && Contains(Lower(p.genres[i]), Lower(query))
  }

  /** "All Types", or the profile's type equal to the chosen one ignoring case. */
  function MatchesType(p: GigProfile, performerType: string): (b: bool)
    ensures performerType == AllTypes ==> b
    ensures p.performerType.None? ==> (b <==> performerType == AllTypes)
  {
    performerType == AllTypes ||
    (p.performerType.Some? && Lower(p.performerType.value) == Lower(performerType))
  }

  /** The base price against the chosen bucket; an unknown bucket admits all. */
  function MatchesPrice(p: GigProfile, priceRange: string): (b: bool)
    ensures priceRange != "under5k" && priceRange != "5k-15k" && priceRange != "over15k" ==> b
    ensures p.basePrice.None? ==> (b <==> priceRange != "5k-15k" && priceRange != "over15k")
  {
    var base := PriceValue(p.basePrice);
    if priceRange == "under5k" then base < 5000
    else if priceRange == "5k-15k" then base >= 5000 && base <= 15000
    else if priceRange == "over15k" then base > 15000
    else true
  }

  function Matches(p: GigProfile, query: string, performerType: string, priceRange: string): (b: bool)
    ensures query == "" && performerType == AllTypes && priceRange == "all" ==> b
    ensures b ==> performerType == AllTypes || p.performerType.Some?
  {
    MatchesSearch(p, query) && MatchesType(p, performerType) && MatchesPrice(p, priceRange)
  }

  /** The listed profiles, in their order, that pass all three filters. */
  function FilteredProfiles(ps: seq<GigProfile>, query: string, performerType: string,
                            priceRange: string): (r: seq<GigProfile>)
    ensures forall p :: p in r <==> p in ps && Matches(p, query, performerType, priceRange)
    ensures IsSubsequence(r, ps)
  {
    Filter(ps, p => Matches(p, query, performerType, priceRange))
  }

  /** The three price buckets split every base price: each price falls in
      exactly one of them. */
  lemma PriceBucketsPartition(p: GigProfile)
    ensures MatchesPrice(p, "under5k") || MatchesPrice(p, "5k-15k") || MatchesPrice(p, "over15k")
    ensures !(MatchesPrice(p, "under5k") && MatchesPrice(p, "5k-15k"))
    ensures !(MatchesPrice(p, "5k-15k") && MatchesPrice(p, "over15k"))
    ensures !(MatchesPrice(p, "under5k") && MatchesPrice(p, "over15k"))
  {
  }

  /** With the filters at their initial values (empty query, all types, all
      prices) every listed profile is shown, in order. */
  lemma InitialFiltersShowAll(ps: seq<GigProfile>)
    ensures FilteredProfiles(ps, "", AllTypes, "all") == ps
  {
    forall p | p in ps
      ensures Matches(p, "", AllTypes, "all")
    {
      ContainsEmpty(Lower(p.stageName));
    }
    FilterKeepsAll(ps, p => Matches(p, "", AllTypes, "all"));
  }

  /** A profile whose type was chosen at onboarding (solo, duo, trio, band,
      orchestra or dj) never matches the "Ensemble" choice. */
  lemma EnsembleMatchesNoOnboardedType(p: GigProfile)
    requires p.performerType.Some?
    requires p.performerType.value in ["solo", "duo", "trio", "band", "orchestra", "dj"]
    ensures !MatchesType(p, "Ensemble")
  {
    assert |Lower(p.performerType.value)| != |Lower("Ensemble")|;
  }

  /** The "Solo", "Duo" and "Band" choices match the onboarding types of the
      same name. */
  lemma ChoicesMatchOnboardedTypes(p: GigProfile, q: GigProfile, r: GigProfile)
    requires p.performerType == Some("solo") && q.performerType == Some("duo")
    requires r.performerType == Some("band")
    ensures MatchesType(p, "Solo") && MatchesType(q, "Duo") && MatchesType(r, "Band")
  {
    assert Lower("Solo") == "solo" && Lower("Duo") == "duo" && Lower("Band") == "band";
  }
}

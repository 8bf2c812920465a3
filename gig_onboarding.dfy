/** The three-step form a performer fills in to create a gig profile:
    identity and genres, media links, then prices and extras. */
module GigOnboarding {
  import opened Text
  import opened Lists

  const MaxGenres := 5
  const MaxUrls := 5
  const DefaultBasePrice := 5000
  const DefaultPricePerHour := 2000

  /** The performer types offered. */
  const PerformerTypes: seq<string> := ["solo", "duo", "trio", "band", "orchestra", "dj"]

  /** The genre list after clicking a genre: a chosen genre is dropped, a new
      one is added at the end while fewer than five are chosen, and otherwise
      the list stays as it is. */
  function ToggledGenres(genres: seq<string>, genre: string): (r: seq<string>)
    ensures genre in r <==> genre !in genres && |genres| < MaxGenres
    ensures forall g :: g != genre ==> (g in r <==> g in genres)
    ensures genre !in genres && |genres| >= MaxGenres ==> r == genres
    ensures genre !in genres && |genres| < MaxGenres ==> r == genres + [genre]
  {
    if genre in genres then RemoveAll(genres, genre)
    else if |genres| < MaxGenres then genres + [genre]
    else genres
  }

  /** A genre list of at most five distinct genres stays one after a click. */
  lemma ToggledGenresKeepsBound(genres: seq<string>, genre: string)
    requires |genres| <= MaxGenres && NoDuplicates(genres)
    ensures |ToggledGenres(genres, genre)| <= MaxGenres
    ensures NoDuplicates(ToggledGenres(genres, genre))
  {
    if genre in genres {
      ToggleNoDuplicates(genres, genre);
    }
  }

  /** What a finished form would insert, read from its fields. */
  datatype Draft = Draft(
    stageName: string,
    bio: string,
    performerType: string,
    location: string,
    genres: seq<string>,
    basePrice: string,
    pricePerHour: string,
    videoUrls: seq<string>,
    audioUrls: seq<string>,
    setlist: string,
    techRider: string)

  /** The row inserted into `gig_profiles`. */
  datatype NewGigProfile = NewGigProfile(
    userId: string,
    stageName: string,
    bio: Option<string>,
    performerType: string,
    location: Option<string>,
    genres: seq<string>,
    basePrice: int,
    pricePerHour: int,
    videoUrls: seq<string>,
    audioUrls: seq<string>,
    setlist: Option<string>,
    techRider: Option<string>,
    isAvailable: bool)

  /** What "Create Profile" does: send a visitor to log in, refuse a blank
      stage name or an empty genre list, or insert the profile. */
  datatype Submission = LoginRequired | MissingStageName | MissingGenres | Insert(row: NewGigProfile)

  /** `s.trim() || null`. */
  function TrimmedOrNull(s: string): (r: Option<string>)
    ensures r.None? <==> IsBlank(s)
    ensures r.Some? ==> r.value == Trim(s)
  {
    if IsBlank(s) then None else Some(Trim(s))
  }

  /** The links that are not blank, in their order. */
  function NonBlank(urls: seq<string>): (r: seq<string>)
    ensures forall u :: u in r <==> u in urls && !IsBlank(u)
    ensures forall u :: multiset(r)[u] == if !IsBlank(u) then multiset(urls)[u] else 0
    ensures IsSubsequence(r, urls)
  {
    Filter(urls, u => !IsBlank(u))
  }

  function Submit(user: Option<string>, d: Draft): (s: Submission)
    ensures s == LoginRequired <==> user.None?
    ensures s == MissingStageName <==> user.Some? && IsBlank(d.stageName)
    ensures s == MissingGenres <==> user.Some? && !IsBlank(d.stageName) && d.genres == []
    ensures s.Insert? ==>
      s.row.userId == user.value &&
      s.row.stageName == Trim(d.stageName) && s.row.stageName != [] &&
      s.row.bio == TrimmedOrNull(d.bio) && s.row.location == TrimmedOrNull(d.location) &&
      s.row.performerType == d.performerType &&
      s.row.genres == d.genres && s.row.genres != [] &&
      s.row.basePrice == IntOr(ParseInt(d.basePrice), DefaultBasePrice) && s.row.basePrice != 0 &&
      s.row.pricePerHour == IntOr(ParseInt(d.pricePerHour), DefaultPricePerHour) &&
      s.row.pricePerHour != 0 &&
      s.row.videoUrls == NonBlank(d.videoUrls) && s.row.audioUrls == NonBlank(d.audioUrls) &&
      s.row.setlist == TrimmedOrNull(d.setlist) && s.row.techRider == TrimmedOrNull(d.techRider) &&
      s.row.isAvailable
  {
    if user.None? then LoginRequired
    else if IsBlank(d.stageName) then MissingStageName
    else if d.genres == [] then MissingGenres
    else Insert(NewGigProfile(
      user.value, Trim(d.stageName), TrimmedOrNull(d.bio), d.performerType,
      TrimmedOrNull(d.location), d.genres,
      IntOr(ParseInt(d.basePrice), DefaultBasePrice),
      IntOr(ParseInt(d.pricePerHour), DefaultPricePerHour),
      NonBlank(d.videoUrls), NonBlank(d.audioUrls),
      TrimmedOrNull(d.setlist), TrimmedOrNull(d.techRider), true))
  }

  /** A price field left empty or at zero inserts the default price. */
  lemma EmptyPriceFallsBack(field: string, fallback: int)
    requires field == "" || field == "0"
    ensures IntOr(ParseInt(field), fallback) == fallback
  {
    if field == "0" {
      ParseDigits(field);
      assert field[..0] == [];
    }
  }

  /** A price field holding the decimal text of its positive default saves
      what an emptied field saves: the default itself. */
  lemma PresetSavesLikeEmpty(field: string, fallback: nat)
    requires fallback > 0 && field == Decimal(fallback)
    ensures IntOr(ParseInt(field), fallback) == IntOr(ParseInt(""), fallback) == fallback
  {
    DecimalRoundTrip(fallback);
    EmptyPriceFallsBack("", fallback);
  }

  /** The form's preset prices "5000" and "2000" are the decimal texts of the
      defaults, so a performer who leaves a price untouched and one who
      empties it insert the same price. */
  lemma PresetPricesSaveDefaults()
    ensures IntOr(ParseInt("5000"), DefaultBasePrice) == IntOr(ParseInt(""), DefaultBasePrice) == DefaultBasePrice
    ensures IntOr(ParseInt("2000"), DefaultPricePerHour) == IntOr(ParseInt(""), DefaultPricePerHour)
                                                         == DefaultPricePerHour
  {
    assert Decimal(5) == "5" && Decimal(50) == "50" && Decimal(500) == "500" && Decimal(5000) == "5000";
    assert Decimal(2) == "2" && Decimal(20) == "20" && Decimal(200) == "200" && Decimal(2000) == "2000";
    PresetSavesLikeEmpty("5000", DefaultBasePrice);
    PresetSavesLikeEmpty("2000", DefaultPricePerHour);
  }

  /** The answer to an insert: success, or an error with its code. */
  datatype InsertResult = Success | Failure(code: string)

  /** After the insert the page moves to the directory on success and when
      the performer already has a profile (unique violation 23505); on any
      other error it stays on the form. */
  function LeavesForm(result: InsertResult): (r: bool)
    ensures r <==> result.Success? || result.code == "23505"
  {
    match result
    case Success => true
    case Failure(code) => code == "23505"
  }

  /** The form's state. */
  class Form {
    var step: int
    var stageName: string
    var bio: string
    var performerType: string
    var location: string
    var genres: seq<string>
    var basePrice: string
    var pricePerHour: string
    var videoUrls: seq<string>
    var audioUrls: seq<string>
    var setlist: string
    var techRider: string

    /** The step is one of the three, at most five distinct genres are
        chosen, and each link list holds between one and five entries. */
    ghost predicate Valid()
      reads this
    {
      1 <= step <= 3 &&
      |genres| <= MaxGenres && NoDuplicates(genres) &&
      1 <= |videoUrls| <= MaxUrls && 1 <= |audioUrls| <= MaxUrls
    }

    constructor ()
      ensures Valid()
      ensures step == 1 && stageName == "" && bio == "" && performerType == "solo"
      ensures location == "" && genres == [] && basePrice == "5000" && pricePerHour == "2000"
      ensures videoUrls == [""] && audioUrls == [""] && setlist == "" && techRider == ""
    {
      step := 1;
      stageName := "";
      bio := "";
      performerType := "solo";
      location := "";
      genres := [];
      basePrice := "5000";
      pricePerHour := "2000";
      videoUrls := [""];
      audioUrls := [""];
      setlist := "";
      techRider := "";
    }

    function Current(): Draft
      reads this
    {
      Draft(stageName, bio, performerType, location, genres, basePrice, pricePerHour,
            videoUrls, audioUrls, setlist, techRider)
    }

    /** Clicks a genre; `rejected` is the "at most five" warning. */
    method ToggleGenre(genre: string) returns (rejected: bool)
      requires Valid()
      modifies this`genres
      ensures Valid()
      ensures genres == ToggledGenres(old(genres), genre)
      ensures rejected <==> genre !in old(genres) && |old(genres)| >= MaxGenres
    {
      ToggledGenresKeepsBound(genres, genre);
      rejected := genre !in genres && |genres| >= MaxGenres;
      genres := ToggledGenres(genres, genre);
    }

    /** Adds an empty video link while there are fewer than five. */
    method AddVideoUrl()
      requires Valid()
      modifies this`videoUrls
      ensures Valid()
      ensures videoUrls == if |old(videoUrls)| < MaxUrls then old(videoUrls) + [""] else old(videoUrls)
    {
      if |videoUrls| < MaxUrls {
        videoUrls := videoUrls + [""];
      }
    }

    /** Removes the video link at `index`; offered only while there are two or more. */
    method RemoveVideoUrl(index: int)
      requires Valid() && |videoUrls| > 1 && 0 <= index < |videoUrls|
      modifies this`videoUrls
      ensures Valid()
      ensures videoUrls == old(videoUrls)[..index] + old(videoUrls)[index + 1..]
    {
      videoUrls := RemoveAt(videoUrls, index);
    }

    /** Replaces the video link at `index` with what was typed. */
    method UpdateVideoUrl(index: int, value: string)
      requires Valid() && 0 <= index < |videoUrls|
      modifies this`videoUrls
      ensures Valid()
      ensures videoUrls == old(videoUrls)[index := value]
    {
      videoUrls := videoUrls[index := value];
    }

    /** Adds an empty audio link while there are fewer than five. */
    method AddAudioUrl()
      requires Valid()
      modifies this`audioUrls
      ensures Valid()
      ensures audioUrls == if |old(audioUrls)| < MaxUrls then old(audioUrls) + [""] else old(audioUrls)
    {
      if |audioUrls| < MaxUrls {
        audioUrls := audioUrls + [""];
      }
    }

    /** Removes the audio link at `index`; offered only while there are two or more. */
    method RemoveAudioUrl(index: int)
      requires Valid() && |audioUrls| > 1 && 0 <= index < |audioUrls|
      modifies this`audioUrls
      ensures Valid()
      ensures audioUrls == old(audioUrls)[..index] + old(audioUrls)[index + 1..]
    {
      audioUrls := RemoveAt(audioUrls, index);
    }

    /** Replaces the audio link at `index` with what was typed. */
    method UpdateAudioUrl(index: int, value: string)
      requires Valid() && 0 <= index < |audioUrls|
      modifies this`audioUrls
      ensures Valid()
      ensures audioUrls == old(audioUrls)[index := value]
    {
      audioUrls := audioUrls[index := value];
    }

    /** "Continue": from the first step only with a non-blank stage name and
        at least one genre, from the second step always, from the last never. */
    method Next()
      requires Valid()
      modifies this`step
      ensures Valid()
      ensures old(step) == 1 ==> step == (if !IsBlank(stageName) && genres != [] then 2 else 1)
      ensures old(step) == 2 ==> step == 3
      ensures old(step) == 3 ==> step == 3
    {
      if step == 1 && !IsBlank(stageName) && genres != [] {
        step := 2;
      } else if step == 2 {
        step := 3;
      }
    }

    /** "Back": one step back, except from the first. */
    method Back()
      requires Valid()
      modifies this`step
      ensures Valid()
      ensures step == if old(step) > 1 then old(step) - 1 else 1
    {
      if step > 1 {
        step := step - 1;
      }
    }

    /** "Create Profile": what the current fields submit; the form is unchanged. */
    method HandleSubmit(user: Option<string>) returns (s: Submission)
      ensures s == Submit(user, Current())
    {
      s := Submit(user, Current());
    }
  }

  /** A form that reached the second step has something to submit: for a
      signed-in performer its fields give an insert rather than a refusal. */
  lemma PastFirstStepSubmits(user: string, d: Draft)
    requires !IsBlank(d.stageName) && d.genres != []
    ensures Submit(Some(user), d).Insert?
  {
  }
}

/** A performer's page and its booking request form. */
module GigDetail {
  import opened Text
  import opened Calendar
  import opened Gigs

  /** The performance lengths offered, in hours, and the one preselected. */
  const DurationChoices: seq<int> := [1, 2, 3, 4, 5, 6, 8]
  const DefaultDuration := 2
  const DefaultStartTime := "18:00"

  /** The quoted total: the base price plus the hourly price for each hour,
      or 0 while no profile is loaded. */
  function CalculateTotal(gig: Option<GigProfile>, hours: int): (total: int)
    ensures gig.None? ==> total == 0
    ensures gig.Some? ==>
      total - PriceValue(gig.value.basePrice) == PriceValue(gig.value.pricePerHour) * hours
  {
    if gig.None? then 0
    else PriceValue(gig.value.basePrice) + PriceValue(gig.value.pricePerHour) * hours
  }

  /** Each extra hour adds the hourly price once. */
  lemma TotalStep(gig: GigProfile, hours: int)
    ensures CalculateTotal(Some(gig), hours + 1)
            == CalculateTotal(Some(gig), hours) + PriceValue(gig.pricePerHour)
  {
    var h := PriceValue(gig.pricePerHour);
    assert h * (hours + 1) == h * hours + h;
  }

  /** At a non-negative hourly price a longer booking never costs less. */
  lemma {:induction false} TotalMonotone(gig: GigProfile, h1: int, h2: int)
    requires PriceValue(gig.pricePerHour) >= 0 && h1 <= h2
    ensures CalculateTotal(Some(gig), h1) <= CalculateTotal(Some(gig), h2)
    decreases h2 - h1
  {
    if h1 < h2 {
      TotalStep(gig, h1);
      TotalMonotone(gig, h1 + 1, h2);
    }
  }

  /** The request form's values. */
  datatype GigBookingForm = GigBookingForm(
    eventDate: Option<DateTime>,
    startTime: string,
    durationHours: int,
    eventType: string,
    venue: string,
    location: string,
    specialRequests: string)

  const InitialGigBookingForm := GigBookingForm(None, DefaultStartTime, DefaultDuration, "", "", "", "")

  /** The row a request inserts into `gig_bookings`. */
  datatype NewGigBooking = NewGigBooking(
    gigProfileId: string,
    clientId: string,
    eventDay: (int, int, int),
    startTime: string,
    durationHours: int,
    eventType: string,
    venue: string,
    location: string,
    specialRequests: Option<string>,
    totalPrice: int,
    status: string)

  /** What pressing "Request booking" does. */
  datatype GigBooking = LoginRequired | MissingFields | Insert(row: NewGigBooking)

  /** A date, an event type, a venue and a location are all given. */
  predicate Complete(form: GigBookingForm) {
    form.eventDate.Some? && form.eventType != "" && form.venue != "" && form.location != ""
  }

  function BookGig(user: Option<string>, gig: GigProfile, form: GigBookingForm): (b: GigBooking)
    ensures b == LoginRequired <==> user.None?
    ensures b == MissingFields <==> user.Some? && !Complete(form)
    ensures b.Insert? ==>
      b.row.gigProfileId == gig.id && b.row.clientId == user.value &&
      b.row.eventDay == Day(form.eventDate.value) &&
      b.row.startTime == form.startTime && b.row.durationHours == form.durationHours &&
      b.row.eventType == form.eventType && b.row.venue == form.venue &&
      b.row.location == form.location &&
      (b.row.specialRequests.None? <==> form.specialRequests == "") &&
      (b.row.specialRequests.Some? ==> b.row.specialRequests.value == form.specialRequests) &&
      b.row.totalPrice == CalculateTotal(Some(gig), form.durationHours) &&
      b.row.status == "pending"
  {
    if user.None? then LoginRequired
    else if !Complete(form) then MissingFields
    else Insert(NewGigBooking(
      gig.id, user.value, Day(form.eventDate.value), form.startTime, form.durationHours,
      form.eventType, form.venue, form.location,
      if form.specialRequests == "" then None else Some(form.specialRequests),
      CalculateTotal(Some(gig), form.durationHours), "pending"))
  }

  /** A signed-in client with a complete form requests the quoted total, and
      the preselected two hours are quoted as the base price plus two hourly
      prices. */
  lemma RequestQuotesTotal(user: string, gig: GigProfile, form: GigBookingForm)
    requires Complete(form) && form.durationHours == DefaultDuration
    ensures BookGig(Some(user), gig, form).Insert?
    ensures BookGig(Some(user), gig, form).row.totalPrice
            == PriceValue(gig.basePrice) + 2 * PriceValue(gig.pricePerHour)
    ensures DefaultDuration in DurationChoices
  {
  }
}

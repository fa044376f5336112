/** The property page's booking panel: the price total it shows for the chosen dates, and the
    booking form with its date pre-check and its reset after a request goes through. */
module PropertyDetails {
  import opened Wrappers
  import opened Text
  import opened Validation

  /** The two price fields of a loaded property: `price`, and `price_per_night` of older
      rows. None is an undefined field. Prices are whole numbers here. */
  datatype PriceFields = PriceFields(price: Option<int>, pricePerNight: Option<int>)

  /** `property.price || property.price_per_night`: a zero or absent `price` falls back. */
  function NightlyPrice(p: PriceFields): (r: Option<int>)
    ensures p.price.Some? && p.price.value != 0 ==> r == p.price
    ensures !(p.price.Some? && p.price.value != 0) ==> r == p.pricePerNight
  {
    if p.price.Some? && p.price.value != 0 then p.price else p.pricePerNight
  }

  /** What `calculateTotal` returns: the night count and the total, the total being NaN
      (None) when neither price field is defined. */
  datatype TotalInfo = TotalInfo(nights: int, total: Option<int>)

  /** `calculateTotal`: null unless both dates are set; nights is `Math.ceil` of the
      millisecond difference over a day's length; null unless nights is positive. */
  function CalculateTotal(startDate: string, endDate: string, p: PriceFields): (r: Option<TotalInfo>)
    ensures startDate == "" || endDate == "" ==> r.None?
    ensures r.Some? <==> IsEndDateAfterStartDate(startDate, endDate)
    ensures r.Some? ==>
      && r.value.nights == ParseDate(endDate).value - ParseDate(startDate).value
      && r.value.nights > 0
      && r.value.total == if NightlyPrice(p).Some? then Some(r.value.nights * NightlyPrice(p).value) else None
  {
    if startDate != "" && endDate != "" then
      match (ParseDate(startDate), ParseDate(endDate))
      case (Some(s), Some(e)) =>
        assert TimeValue(e) - TimeValue(s) == (e - s) * MsPerDay;
        CeilDivOfWholeDays(e - s);
        var nights := CeilDiv(TimeValue(e) - TimeValue(s), MsPerDay);
        if nights > 0 then
          Some(TotalInfo(nights, match NightlyPrice(p) case Some(n) => Some(nights * n) case None => None))
        else None
      // An invalid date makes the difference NaN, and NaN > 0 is false.
      case _ => None
    else None
  }

  /** The total's night count agrees with the backend's `calculateNights` for the same
      dates. */
  lemma TotalNightsMatchBackend(startDate: string, endDate: string, p: PriceFields)
    requires CalculateTotal(startDate, endDate, p).Some?
    ensures CalculateNights(startDate, endDate) == Some(CalculateTotal(startDate, endDate, p).value.nights)
  {
    NightsIsDayDistance(startDate, endDate);
  }

  /** The request `handleBooking` posts to `/bookings/request`. */
  datatype BookingRequest = BookingRequest(propertyId: string, startDate: string, endDate: string, guests: int)

  /** `new Date(endDate) <= new Date(startDate)`: a comparison with Invalid Date is false, so
      only two valid dates can refuse. */
  predicate DatesRefused(startDate: string, endDate: string) {
    ParseDate(startDate).Some? && ParseDate(endDate).Some? && ParseDate(endDate).value <= ParseDate(startDate).value
  }

  /** For two valid dates the pre-check refuses exactly when the end is not strictly after the
      start; with an empty or invalid date it lets the request through. Whenever the total is
      shown the pre-check passes. */
  lemma PreCheckMeaning(startDate: string, endDate: string, p: PriceFields)
    ensures ParseDate(startDate).Some? && ParseDate(endDate).Some? ==>
      (DatesRefused(startDate, endDate) <==> !IsEndDateAfterStartDate(startDate, endDate))
    ensures ParseDate(startDate).None? || ParseDate(endDate).None? ==> !DatesRefused(startDate, endDate)
    ensures !DatesRefused("", "")
    ensures CalculateTotal(startDate, endDate, p).Some? ==> !DatesRefused(startDate, endDate)
  {
    assert !IsDateShape("");
  }

  /** The booking panel's state: the two date inputs, the guest count and the busy flag. */
  class BookingForm {
    var startDate: string
    var endDate: string
    var guests: int
    var bookingLoading: bool

    /** The panel as the page first renders it: ('', '', 1), not busy. */
    constructor ()
      ensures startDate == "" && endDate == "" && guests == 1 && !bookingLoading
    {
      startDate, endDate, guests, bookingLoading := "", "", 1, false;
    }

    /** `handleBooking`: refused dates raise an alert and send nothing; otherwise the request
        carries the form's values, and the form resets to ('', '', 1) only when it
        succeeds. The busy flag is cleared either way. `succeeds` is the request's outcome. */
    method HandleBooking(propertyId: string, succeeds: bool) returns (sent: Option<BookingRequest>, alert: string)
      modifies this
      ensures DatesRefused(old(startDate), old(endDate)) ==>
        && sent.None? && alert == "End date must be after start date."
        && startDate == old(startDate) && endDate == old(endDate) && guests == old(guests)
        && bookingLoading == old(bookingLoading)
      ensures !DatesRefused(old(startDate), old(endDate)) ==>
        && sent == Some(BookingRequest(propertyId, old(startDate), old(endDate), old(guests)))
        && !bookingLoading
      ensures !DatesRefused(old(startDate), old(endDate)) && succeeds ==>
        startDate == "" && endDate == "" && guests == 1 && alert == "Booking request submitted successfully!"
      ensures !DatesRefused(old(startDate), old(endDate)) && !succeeds ==>
        startDate == old(startDate) && endDate == old(endDate) && guests == old(guests)
        && alert == "Booking failed. Please try again."
    {
      if DatesRefused(startDate, endDate) {
        return None, "End date must be after start date.";
      }
      bookingLoading := true;
      sent := Some(BookingRequest(propertyId, startDate, endDate, guests));
      if succeeds {
        alert := "Booking request submitted successfully!";
        startDate := "";
        endDate := "";
        guests := 1;
      } else {
        alert := "Booking failed. Please try again.";
      }
      bookingLoading := false;
    }
  }

  /** After a booking goes through the panel shows no total, and a second submit of the
      emptied form is not refused by the pre-check (it is left to the server). */
  method BookThenResubmit(form: BookingForm, propertyId: string, p: PriceFields) returns (again: Option<BookingRequest>)
    requires IsEndDateAfterStartDate(form.startDate, form.endDate)
    modifies form
    ensures again == Some(BookingRequest(propertyId, "", "", 1))
  {
    PreCheckMeaning(form.startDate, form.endDate, p);
    var sent, alert := form.HandleBooking(propertyId, true);
    assert sent.Some? && CalculateTotal(form.startDate, form.endDate, p).None?;
    PreCheckMeaning(form.startDate, form.endDate, p);
    var alertAgain;
    again, alertAgain := form.HandleBooking(propertyId, true);
  }
}

/** The property handlers: the public availability search and lookup, and the owner's create,
    update, delete and listing over the properties table. */
module PropertyController {
  import opened Wrappers
  import opened Text
  import opened Validation
  import opened Auth
  import opened Http
  import opened Bookings

  /** A row of the properties table. The availability columns hold the text that was written
      (or None for NULL); the database compares them as dates. */
  datatype Property = Property(
    id: nat,
    ownerId: nat,
    name: string,
    kind: string,
    location: string,
    city: string,
    state: Option<string>,
    country: string,
    price: int,
    bedrooms: int,
    bathrooms: int,
    maxGuests: int,
    imageUrl: string,
    description: string,
    amenities: string,
    availableFrom: Option<string>,
    availableTo: Option<string>)

  const LocationRequired := "Location parameter is required"
  const InvalidDateFormat := "Invalid date format. Use YYYY-MM-DD"
  const EndNotAfterStart := "End date must be after start date"
  const NotAuthenticated := "Owner not authenticated"
  const PropertyNotFound := "Property not found"
  const InvalidPropertyId := "Invalid property ID"
  const NotYourPropertyToDelete := "You can only delete your own properties"
  const NotYourPropertyToUpdate := "You can only update your own properties"
  const PriceNotPositive := "Price must be a positive number"
  const NothingToUpdate := "No fields to update"
  const InvalidAvailableFrom := "Invalid availableFrom date format. Use YYYY-MM-DD"
  const InvalidAvailableTo := "Invalid availableTo date format. Use YYYY-MM-DD"
  const WindowReversed := "availableTo must be after availableFrom"
  const MissingFields := "Name, type, city, country, price, bedrooms, bathrooms, and maxGuests are required"
  const NonPositiveNumbers := "Price, bedrooms, bathrooms, and maxGuests must be positive numbers"

  // ---------------------------------------------------------------------------------------
  // Availability search
  // ---------------------------------------------------------------------------------------

  /** The query string of a search; an absent parameter is None. */
  datatype SearchQuery = SearchQuery(
    location: Option<string>,
    startDate: Option<string>,
    endDate: Option<string>,
    guests: Option<string>)

  /** The conflict test of the search's sub-select, clause for clause: the booking covers the
      first requested day, or the last one, or lies inside the requested stay. */
  predicate SqlOverlap(bookStart: int, bookEnd: int, start: int, end: int) {
    || (bookStart <= start && bookEnd >= start)
    || (bookStart <= end && bookEnd >= end)
    || (bookStart >= start && bookEnd <= end)
  }

  /** For well-formed stays the three clauses say exactly that the two stays share a day. */
  lemma SqlOverlapIsInclusiveOverlap(bookStart: int, bookEnd: int, start: int, end: int)
    requires bookStart <= bookEnd && start <= end
    ensures SqlOverlap(bookStart, bookEnd, start, end) <==> RangesOverlap(bookStart, bookEnd, start, end)
  {
  }

  /** Hence for well-formed stays the test does not depend on which stay is the booking. */
  lemma SqlOverlapSymmetric(s1: int, e1: int, s2: int, e2: int)
    requires s1 <= e1 && s2 <= e2
    ensures SqlOverlap(s1, e1, s2, e2) <==> SqlOverlap(s2, e2, s1, e1)
  {
    SqlOverlapIsInclusiveOverlap(s1, e1, s2, e2);
    SqlOverlapIsInclusiveOverlap(s2, e2, s1, e1);
    RangesOverlapSymmetric(s1, e1, s2, e2);
  }

  /** The symmetry needs well-formed stays: a booking whose end precedes its start can be
      caught by the third clause in one direction only. */
  lemma SqlOverlapAsymmetricOnReversedStay()
    ensures SqlOverlap(5, 1, 2, 3) && !SqlOverlap(2, 3, 5, 1)
  {
  }

  /** A booking that ends on the first requested day, or starts on the last one, conflicts. */
  lemma SqlOverlapSharedBoundary(bookStart: int, bookEnd: int, start: int, end: int)
    requires bookStart <= bookEnd
    ensures bookEnd == start ==> SqlOverlap(bookStart, bookEnd, start, end)
    ensures bookStart == end ==> SqlOverlap(bookStart, bookEnd, start, end)
  {
  }

  /** Some ACCEPTED booking of the property satisfies the conflict test. */
  predicate HasAcceptedConflict(propertyId: nat, start: int, end: int, bookings: map<nat, Booking>) {
    exists k :: k in bookings && IsAcceptedConflict(bookings[k], propertyId, start, end)
  }

  predicate IsAcceptedConflict(b: Booking, propertyId: nat, start: int, end: int) {
    b.propertyId == propertyId && b.status == Accepted && SqlOverlap(b.startDate, b.endDate, start, end)
  }

  /** A DATE column compared with `<=` / `>=` against a date: NULL, or text that is no date,
      never satisfies the comparison. */
  predicate ColumnAtMost(column: Option<string>, day: int) {
    column.Some? && ParseDate(column.value).Some? && ParseDate(column.value).value <= day
  }

  predicate ColumnAtLeast(column: Option<string>, day: int) {
    column.Some? && ParseDate(column.value).Some? && ParseDate(column.value).value >= day
  }

  /** The day a present, non-empty date parameter names. */
  function DayOf(o: Option<string>): Option<int> {
    if Truthy(o) then ParseDate(o.value) else None
  }

  /** The guest count the search filters on: `parseInt(guests, 10)` when that is a number. */
  function GuestsOf(q: SearchQuery): Option<int> {
    if Truthy(q.guests) then ParseInt(q.guests.value) else None
  }

  /** The location text occurs in the city, the country or the location column. */
  predicate LocationMatches(p: Property, text: string) {
    Contains(p.city, text) || Contains(p.country, text) || Contains(p.location, text)
  }

  /** What the search asks of a property, read per case of the date parameters. */
  predicate WindowFits(q: SearchQuery, p: Property, bookings: map<nat, Booking>) {
    match (DayOf(q.startDate), DayOf(q.endDate))
    case (Some(s), Some(e)) =>
      ColumnAtMost(p.availableFrom, s) && ColumnAtLeast(p.availableTo, e)
      && !HasAcceptedConflict(p.id, s, e, bookings)
    case (Some(s), None) => ColumnAtLeast(p.availableTo, s)
    case (None, Some(e)) => ColumnAtMost(p.availableFrom, e)
    case (None, None) => true
  }

  predicate GuestsFit(q: SearchQuery, p: Property) {
    GuestsOf(q).Some? ==> p.maxGuests >= GuestsOf(q).value
  }

  predicate Wanted(q: SearchQuery, p: Property, bookings: map<nat, Booking>) {
    q.location.Some? && LocationMatches(p, q.location.value) && WindowFits(q, p, bookings) && GuestsFit(q, p)
  }

  /** The answer of the search over `rows` (newest first), as a reference definition: the
      validation refusals in their order, then the rows the search wants, in their order. */
  function Search(q: SearchQuery, rows: seq<Property>, bookings: map<nat, Booking>): (r: Reply<seq<Property>>)
    ensures !Truthy(q.location) ==> r == Fail(400, LocationRequired)
    ensures r.Ok? <==>
      Truthy(q.location)
      && (Truthy(q.startDate) ==> IsValidDate(q.startDate.value))
      && (Truthy(q.endDate) ==> IsValidDate(q.endDate.value))
      && (Truthy(q.startDate) && Truthy(q.endDate) ==> IsEndDateAfterStartDate(q.startDate.value, q.endDate.value))
    ensures r.Ok? ==> r.status == 200 && forall p :: p in r.body <==> p in rows && Wanted(q, p, bookings)
  {
    if !Truthy(q.location) then Fail(400, LocationRequired)
    else if Truthy(q.startDate) && !IsValidDate(q.startDate.value) then Fail(400, InvalidDateFormat)
    else if Truthy(q.endDate) && !IsValidDate(q.endDate.value) then Fail(400, InvalidDateFormat)
    else if Truthy(q.startDate) && Truthy(q.endDate)
      && !IsEndDateAfterStartDate(q.startDate.value, q.endDate.value) then Fail(400, EndNotAfterStart)
    else Ok(200, Filter(rows, (p: Property) => Wanted(q, p, bookings)))
  }

  /** A malformed date, or an end that is not strictly after the start, is refused. */
  lemma SearchRefusesBadDates(q: SearchQuery, rows: seq<Property>, bookings: map<nat, Booking>)
    requires Truthy(q.location)
    ensures Truthy(q.startDate) && ParseDate(q.startDate.value).None? ==> Search(q, rows, bookings) == Fail(400, InvalidDateFormat)
    ensures Truthy(q.endDate) && ParseDate(q.endDate.value).None? ==> Search(q, rows, bookings) == Fail(400, InvalidDateFormat)
    ensures Truthy(q.startDate) && Truthy(q.endDate) && q.startDate.value == q.endDate.value
            ==> Search(q, rows, bookings).Fail? && Search(q, rows, bookings).status == 400
    ensures Search(q, rows, bookings).Ok? && DayOf(q.startDate).Some? && DayOf(q.endDate).Some?
            ==> DayOf(q.startDate).value < DayOf(q.endDate).value
  {
  }

  /** With both dates a kept property is available over the whole stay and has no conflicting
      ACCEPTED booking; with one date only its one-sided bound applies. */
  lemma SearchWindow(q: SearchQuery, rows: seq<Property>, bookings: map<nat, Booking>, p: Property)
    requires Search(q, rows, bookings).Ok? && p in rows
    ensures DayOf(q.startDate).Some? && DayOf(q.endDate).Some? ==>
      (p in Search(q, rows, bookings).body <==>
        q.location.Some? && LocationMatches(p, q.location.value) && GuestsFit(q, p)
        && ColumnAtMost(p.availableFrom, DayOf(q.startDate).value)
        && ColumnAtLeast(p.availableTo, DayOf(q.endDate).value)
        && !HasAcceptedConflict(p.id, DayOf(q.startDate).value, DayOf(q.endDate).value, bookings))
    ensures DayOf(q.startDate).Some? && DayOf(q.endDate).None? ==>
      (p in Search(q, rows, bookings).body <==>
        q.location.Some? && LocationMatches(p, q.location.value) && GuestsFit(q, p)
        && ColumnAtLeast(p.availableTo, DayOf(q.startDate).value))
    ensures DayOf(q.startDate).None? && DayOf(q.endDate).Some? ==>
      (p in Search(q, rows, bookings).body <==>
        q.location.Some? && LocationMatches(p, q.location.value) && GuestsFit(q, p)
        && ColumnAtMost(p.availableFrom, DayOf(q.endDate).value))
  {
  }

  /** A numeric `guests` keeps only properties that sleep that many; any other `guests` text
      filters nothing out. */
  lemma SearchGuests(q: SearchQuery, rows: seq<Property>, bookings: map<nat, Booking>)
    requires Search(q, rows, bookings).Ok?
    ensures GuestsOf(q).Some? ==> forall p :: p in Search(q, rows, bookings).body ==> p.maxGuests >= GuestsOf(q).value
    ensures GuestsOf(q).None? ==>
      forall p :: p in Search(q, rows, bookings).body <==> p in rows && Wanted(q.(guests := None), p, bookings)
  {
  }

  /** The ACCEPTED bookings of a table, which are all the search looks at. */
  function AcceptedPart(t: map<nat, Booking>): (r: map<nat, Booking>)
    ensures forall k :: k in r <==> k in t && t[k].status == Accepted
    ensures forall k :: k in r ==> r[k] == t[k]
  {
    map k | k in t && t[k].status == Accepted :: t[k]
  }

  lemma SameAcceptedSameConflicts(t1: map<nat, Booking>, t2: map<nat, Booking>, propertyId: nat, start: int, end: int)
    requires AcceptedPart(t1) == AcceptedPart(t2)
    ensures HasAcceptedConflict(propertyId, start, end, t1) <==> HasAcceptedConflict(propertyId, start, end, t2)
  {
    if HasAcceptedConflict(propertyId, start, end, t1) {
      var k :| k in t1 && IsAcceptedConflict(t1[k], propertyId, start, end);
      assert k in AcceptedPart(t1);
    }
    if HasAcceptedConflict(propertyId, start, end, t2) {
      var k :| k in t2 && IsAcceptedConflict(t2[k], propertyId, start, end);
      assert k in AcceptedPart(t2);
    }
  }

  /** PENDING and CANCELLED bookings never change the search: two tables with the same ACCEPTED
      bookings give the same answer. */
  lemma SearchIgnoresNonAccepted(q: SearchQuery, rows: seq<Property>, t1: map<nat, Booking>, t2: map<nat, Booking>)
    requires AcceptedPart(t1) == AcceptedPart(t2)
    ensures Search(q, rows, t1) == Search(q, rows, t2)
  {
    forall p | p in rows
      ensures Wanted(q, p, t1) == Wanted(q, p, t2)
    {
      if DayOf(q.startDate).Some? && DayOf(q.endDate).Some? {
        SameAcceptedSameConflicts(t1, t2, p.id, DayOf(q.startDate).value, DayOf(q.endDate).value);
      }
    }
    FilterAgrees(rows, (p: Property) => Wanted(q, p, t1), (p: Property) => Wanted(q, p, t2));
  }

  /** Cancelling a booking never makes a property that the search returned disappear. */
  lemma CancelKeepsSearchResults(q: SearchQuery, rows: seq<Property>, t: map<nat, Booking>, id: nat, now: int)
    requires id in t && Search(q, rows, t).Ok?
    ensures Search(q, rows, CancelIn(t, id, now)).Ok?
    ensures forall p :: p in Search(q, rows, t).body ==> p in Search(q, rows, CancelIn(t, id, now)).body
  {
    var t' := CancelIn(t, id, now);
    forall p | p in Search(q, rows, t).body
      ensures Wanted(q, p, t')
    {
      assert Wanted(q, p, t);
    }
  }

  /** One condition the handler appends to its query, with its parameters. */
  datatype Clause =
    | LocationLike(text: string)
    | AvailableFromAtMost(day: int)
    | AvailableToAtLeast(day: int)
    | NoAcceptedConflict(start: int, end: int)
    | MaxGuestsAtLeast(guests: int)

  predicate Holds(c: Clause, p: Property, bookings: map<nat, Booking>) {
    match c
    case LocationLike(text) => LocationMatches(p, text)
    case AvailableFromAtMost(day) => ColumnAtMost(p.availableFrom, day)
    case AvailableToAtLeast(day) => ColumnAtLeast(p.availableTo, day)
    case NoAcceptedConflict(s, e) => !HasAcceptedConflict(p.id, s, e, bookings)
    case MaxGuestsAtLeast(g) => p.maxGuests >= g
  }

  /** The WHERE conjunction of a list of clauses. */
  predicate HoldsAll(clauses: seq<Clause>, p: Property, bookings: map<nat, Booking>)
    decreases |clauses|
  {
    clauses == [] || (Holds(clauses[0], p, bookings) && HoldsAll(clauses[1..], p, bookings))
  }

  lemma HoldsAllSingle(c: Clause, p: Property, bookings: map<nat, Booking>)
    ensures HoldsAll([c], p, bookings) <==> Holds(c, p, bookings)
  {
    assert [c][1..] == [];
  }

  /** Appending clauses with `+=` conjoins them. */
  lemma {:induction false} HoldsAllConcat(a: seq<Clause>, c: seq<Clause>, p: Property, bookings: map<nat, Booking>)
    ensures HoldsAll(a + c, p, bookings) <==> HoldsAll(a, p, bookings) && HoldsAll(c, p, bookings)
    decreases |a|
  {
    if a != [] {
      assert (a + c)[1..] == a[1..] + c;
      HoldsAllConcat(a[1..], c, p, bookings);
    } else {
      assert a + c == c;
    }
  }

  /** The date clauses `searchProperties` appends: they hold of a property exactly when its
      availability fits the requested window. */
  method WindowClauses(q: SearchQuery, bookings: map<nat, Booking>) returns (window: seq<Clause>)
    requires Truthy(q.startDate) ==> IsValidDate(q.startDate.value)
    requires Truthy(q.endDate) ==> IsValidDate(q.endDate.value)
    ensures forall p :: HoldsAll(window, p, bookings) <==> WindowFits(q, p, bookings)
  {
    window := [];
    if Truthy(q.startDate) && Truthy(q.endDate) {
      var s, e := ParseDate(q.startDate.value).value, ParseDate(q.endDate.value).value;
      window := [AvailableFromAtMost(s), AvailableToAtLeast(e)];
      window := window + [NoAcceptedConflict(s, e)];
      forall p ensures HoldsAll(window, p, bookings) <==> WindowFits(q, p, bookings) {
        assert window == [AvailableFromAtMost(s)] + [AvailableToAtLeast(e)] + [NoAcceptedConflict(s, e)];
        HoldsAllConcat([AvailableFromAtMost(s)] + [AvailableToAtLeast(e)], [NoAcceptedConflict(s, e)], p, bookings);
        HoldsAllConcat([AvailableFromAtMost(s)], [AvailableToAtLeast(e)], p, bookings);
        HoldsAllSingle(AvailableFromAtMost(s), p, bookings);
        HoldsAllSingle(AvailableToAtLeast(e), p, bookings);
        HoldsAllSingle(NoAcceptedConflict(s, e), p, bookings);
      }
    } else if Truthy(q.startDate) && !Truthy(q.endDate) {
      window := [AvailableToAtLeast(ParseDate(q.startDate.value).value)];
      forall p ensures HoldsAll(window, p, bookings) <==> WindowFits(q, p, bookings) {
        HoldsAllSingle(window[0], p, bookings);
      }
    } else if !Truthy(q.startDate) && Truthy(q.endDate) {
      window := [AvailableFromAtMost(ParseDate(q.endDate.value).value)];
      forall p ensures HoldsAll(window, p, bookings) <==> WindowFits(q, p, bookings) {
        HoldsAllSingle(window[0], p, bookings);
      }
    }
  }

  /** The guests clause: present exactly when `guests` reads as a number. */
  method GuestClauses(q: SearchQuery, bookings: map<nat, Booking>) returns (guest: seq<Clause>)
    ensures forall p :: HoldsAll(guest, p, bookings) <==> GuestsFit(q, p)
  {
    guest := [];
    if Truthy(q.guests) {
      var g := ParseInt(q.guests.value);
      if g.Some? {
        guest := [MaxGuestsAtLeast(g.value)];
        forall p ensures HoldsAll(guest, p, bookings) <==> GuestsFit(q, p) {
          HoldsAllSingle(guest[0], p, bookings);
        }
      }
    }
  }

  /** The search handler: it validates the query, appends one clause per supplied filter, and
      returns the rows meeting every clause, which is the answer `Search` defines. */
  method SearchProperties(q: SearchQuery, rows: seq<Property>, bookings: map<nat, Booking>)
    returns (r: Reply<seq<Property>>)
    ensures r == Search(q, rows, bookings)
  {
    if !Truthy(q.location) {
      return Fail(400, LocationRequired);
    }
    if Truthy(q.startDate) && !IsValidDate(q.startDate.value) {
      return Fail(400, InvalidDateFormat);
    }
    if Truthy(q.endDate) && !IsValidDate(q.endDate.value) {
      return Fail(400, InvalidDateFormat);
    }
    if Truthy(q.startDate) && Truthy(q.endDate) && !IsEndDateAfterStartDate(q.startDate.value, q.endDate.value) {
      return Fail(400, EndNotAfterStart);
    }

    var clauses := [LocationLike(q.location.value)];
    var window := WindowClauses(q, bookings);
    clauses := clauses + window;
    var guest := GuestClauses(q, bookings);
    clauses := clauses + guest;

    forall p | p in rows
      ensures HoldsAll(clauses, p, bookings) == Wanted(q, p, bookings)
    {
      HoldsAllSingle(LocationLike(q.location.value), p, bookings);
      HoldsAllConcat([LocationLike(q.location.value)], window, p, bookings);
      HoldsAllConcat([LocationLike(q.location.value)] + window, guest, p, bookings);
    }
    FilterAgrees(rows, (p: Property) => HoldsAll(clauses, p, bookings), (p: Property) => Wanted(q, p, bookings));
    r := Ok(200, Filter(rows, (p: Property) => HoldsAll(clauses, p, bookings)));
  }

  // ---------------------------------------------------------------------------------------
  // The properties table and the owner's handlers
  // ---------------------------------------------------------------------------------------

  /** How the request body gives `amenities`: as text, or as an array. */
  datatype AmenitiesValue = AmenitiesText(text: string) | AmenitiesList(items: seq<string>)

  /** The body of a create or update request; a field the body does not carry is None. */
  datatype PropertyInput = PropertyInput(
    name: Option<string>,
    kind: Option<string>,
    location: Option<string>,
    city: Option<string>,
    state: Option<string>,
    country: Option<string>,
    price: Option<int>,
    bedrooms: Option<int>,
    bathrooms: Option<int>,
    maxGuests: Option<int>,
    imageUrl: Option<string>,
    description: Option<string>,
    amenities: Option<AmenitiesValue>,
    availableFrom: Option<string>,
    availableTo: Option<string>)

  /** The fields `createProperty` demands: four non-empty texts and four numbers. */
  predicate HasRequiredFields(input: PropertyInput) {
    Truthy(input.name) && Truthy(input.kind) && Truthy(input.city) && Truthy(input.country)
    && input.price.Some? && input.bedrooms.Some? && input.bathrooms.Some? && input.maxGuests.Some?
  }

  predicate HasPositiveNumbers(input: PropertyInput)
    requires HasRequiredFields(input)
  {
    input.price.value > 0 && input.bedrooms.value > 0 && input.bathrooms.value > 0 && input.maxGuests.value > 0
  }

  /** The availability checks shared by create and update, first failure first. */
  function DateRefusal(from: Option<string>, to: Option<string>): (r: Option<string>)
    ensures r.None? <==>
      (Truthy(from) ==> ParseDate(from.value).Some?) && (Truthy(to) ==> ParseDate(to.value).Some?)
      && (Truthy(from) && Truthy(to) ==> ParseDate(from.value).value < ParseDate(to.value).value)
  {
    if Truthy(from) && !IsValidDate(from.value) then Some(InvalidAvailableFrom)
    else if Truthy(to) && !IsValidDate(to.value) then Some(InvalidAvailableTo)
    else if Truthy(from) && Truthy(to) && !IsEndDateAfterStartDate(from.value, to.value) then
      Some(WindowReversed)
    else None
  }

  /** `x || fallback` for an optional text. */
  function OrElse(o: Option<string>, fallback: string): string {
    if Truthy(o) then o.value else fallback
  }

  /** `x || null` for an optional text. */
  function OrNull(o: Option<string>): Option<string> {
    if Truthy(o) then o else None
  }

  const PlaceholderImage := "https://via.placeholder.com/400x300"

  /** The amenities column `createProperty` writes: an array becomes its JSON text, and an
      absent or empty value becomes `'[]'`. */
  function CreatedAmenities(a: Option<AmenitiesValue>, stringify: seq<string> -> string): string {
    var text := match a
      case None => ""
      case Some(AmenitiesText(s)) => s
      case Some(AmenitiesList(items)) => stringify(items);
    if text == "" then "[]" else text
  }

  /** The row `createProperty` inserts under the new id. */
  function NewRow(id: nat, ownerId: nat, input: PropertyInput, stringify: seq<string> -> string): Property
    requires HasRequiredFields(input)
  {
    Property(
      id, ownerId, input.name.value, input.kind.value,
      OrElse(input.location, input.city.value + ", " + input.country.value),
      input.city.value, OrNull(input.state), input.country.value,
      input.price.value, input.bedrooms.value, input.bathrooms.value, input.maxGuests.value,
      OrElse(input.imageUrl, PlaceholderImage), OrElse(input.description, ""),
      CreatedAmenities(input.amenities, stringify),
      OrNull(input.availableFrom), OrNull(input.availableTo))
  }

  /** Every row `createProperty` writes has positive numbers, non-empty texts and, when both
      availability dates are set, a window that ends after it starts. */
  predicate WellFormedRow(p: Property) {
    p.price > 0 && p.bedrooms > 0 && p.bathrooms > 0 && p.maxGuests > 0
    && p.name != "" && p.kind != "" && p.city != "" && p.country != "" && p.location != ""
    && p.imageUrl != "" && p.amenities != ""
    && (p.availableFrom.Some? && p.availableTo.Some? ==>
          ParseDate(p.availableFrom.value).Some? && ParseDate(p.availableTo.value).Some?
          && ParseDate(p.availableFrom.value).value < ParseDate(p.availableTo.value).value)
  }

  lemma NewRowWellFormed(id: nat, ownerId: nat, input: PropertyInput, stringify: seq<string> -> string)
    requires HasRequiredFields(input) && HasPositiveNumbers(input)
    requires DateRefusal(input.availableFrom, input.availableTo).None?
    ensures WellFormedRow(NewRow(id, ownerId, input, stringify))
  {
  }

  /** One `column = ?` item of the update's SET list, with its value. */
  datatype Assignment =
    | SetPrice(price: int)
    | SetBedrooms(bedrooms: int)
    | SetBathrooms(bathrooms: int)
    | SetMaxGuests(maxGuests: int)
    | SetName(name: string)
    | SetKind(kind: string)
    | SetLocation(location: string)
    | SetCity(city: string)
    | SetState(state: string)
    | SetCountry(country: string)
    | SetImageUrl(imageUrl: string)
    | SetDescription(description: string)
    | SetAmenities(amenities: string)
    | SetAvailableFrom(availableFrom: string)
    | SetAvailableTo(availableTo: string)

  /** The column an assignment writes. */
  function Column(a: Assignment): string {
    match a
    case SetPrice(_) => "price"
    case SetBedrooms(_) => "bedrooms"
    case SetBathrooms(_) => "bathrooms"
    case SetMaxGuests(_) => "max_guests"
    case SetName(_) => "name"
    case SetKind(_) => "type"
    case SetLocation(_) => "location"
    case SetCity(_) => "city"
    case SetState(_) => "state"
    case SetCountry(_) => "country"
    case SetImageUrl(_) => "image_url"
    case SetDescription(_) => "description"
    case SetAmenities(_) => "amenities"
    case SetAvailableFrom(_) => "available_from"
    case SetAvailableTo(_) => "available_to"
  }

  /** The place of an assignment's column in the handler's fixed order. */
  function Rank(a: Assignment): nat {
    match a
    case SetPrice(_) => 0
    case SetBedrooms(_) => 1
    case SetBathrooms(_) => 2
    case SetMaxGuests(_) => 3
    case SetName(_) => 4
    case SetKind(_) => 5
    case SetLocation(_) => 6
    case SetCity(_) => 7
    case SetState(_) => 8
    case SetCountry(_) => 9
    case SetImageUrl(_) => 10
    case SetDescription(_) => 11
    case SetAmenities(_) => 12
    case SetAvailableFrom(_) => 13
    case SetAvailableTo(_) => 14
  }

  lemma RankIdentifiesColumn(a: Assignment, b: Assignment)
    ensures Rank(a) == Rank(b) <==> Column(a) == Column(b)
  {
  }

  /** The amenities value `updateProperty` writes: an array becomes its JSON text, text is
      written as given. */
  function UpdatedAmenities(a: AmenitiesValue, stringify: seq<string> -> string): string {
    match a
    case AmenitiesText(s) => s
    case AmenitiesList(items) => stringify(items)
  }

  /** Write one assignment into a row. */
  function Apply(p: Property, a: Assignment): Property {
    match a
    case SetPrice(v) => p.(price := v)
    case SetBedrooms(v) => p.(bedrooms := v)
    case SetBathrooms(v) => p.(bathrooms := v)
    case SetMaxGuests(v) => p.(maxGuests := v)
    case SetName(v) => p.(name := v)
    case SetKind(v) => p.(kind := v)
    case SetLocation(v) => p.(location := v)
    case SetCity(v) => p.(city := v)
    case SetState(v) => p.(state := Some(v))
    case SetCountry(v) => p.(country := v)
    case SetImageUrl(v) => p.(imageUrl := v)
    case SetDescription(v) => p.(description := v)
    case SetAmenities(v) => p.(amenities := v)
    case SetAvailableFrom(v) => p.(availableFrom := Some(v))
    case SetAvailableTo(v) => p.(availableTo := Some(v))
  }

  /** Write a SET list into a row, left to right. */
  function ApplyAll(p: Property, list: seq<Assignment>): Property
    decreases |list|
  {
    if list == [] then p else Apply(ApplyAll(p, list[..|list| - 1]), list[|list| - 1])
  }

  /** The row an update leaves: each supplied field replaced, every other column kept. It is
      the reference the SET list is checked against. */
  function Overlay(p: Property, input: PropertyInput, stringify: seq<string> -> string): Property {
    Property(
      p.id, p.ownerId,
      input.name.GetOr(p.name), input.kind.GetOr(p.kind), input.location.GetOr(p.location),
      input.city.GetOr(p.city),
      if input.state.Some? then input.state else p.state,
      input.country.GetOr(p.country),
      input.price.GetOr(p.price), input.bedrooms.GetOr(p.bedrooms), input.bathrooms.GetOr(p.bathrooms),
      input.maxGuests.GetOr(p.maxGuests),
      input.imageUrl.GetOr(p.imageUrl), input.description.GetOr(p.description),
      if input.amenities.Some? then UpdatedAmenities(input.amenities.value, stringify) else p.amenities,
      if input.availableFrom.Some? then input.availableFrom else p.availableFrom,
      if input.availableTo.Some? then input.availableTo else p.availableTo)
  }

  /** No field of the body is supplied. */
  predicate NothingSupplied(input: PropertyInput) {
    input.price.None? && input.bedrooms.None? && input.bathrooms.None? && input.maxGuests.None?
    && input.name.None? && input.kind.None? && input.location.None? && input.city.None?
    && input.state.None? && input.country.None? && input.imageUrl.None? && input.description.None?
    && input.amenities.None? && input.availableFrom.None? && input.availableTo.None?
  }

  /** Columns of a SET list appear in strictly increasing fixed order, so none appears twice. */
  predicate InFixedOrder(list: seq<Assignment>) {
    forall i, j :: 0 <= i < j < |list| ==> Rank(list[i]) < Rank(list[j])
  }

  /** Every item of a SET list writes a field the body supplied. */
  predicate OnlySupplied(list: seq<Assignment>, input: PropertyInput) {
    forall i :: 0 <= i < |list| ==> Supplies(input, list[i])
  }

  predicate Supplies(input: PropertyInput, a: Assignment) {
    match a
    case SetPrice(_) => input.price.Some?
    case SetBedrooms(_) => input.bedrooms.Some?
    case SetBathrooms(_) => input.bathrooms.Some?
    case SetMaxGuests(_) => input.maxGuests.Some?
    case SetName(_) => input.name.Some?
    case SetKind(_) => input.kind.Some?
    case SetLocation(_) => input.location.Some?
    case SetCity(_) => input.city.Some?
    case SetState(_) => input.state.Some?
    case SetCountry(_) => input.country.Some?
    case SetImageUrl(_) => input.imageUrl.Some?
    case SetDescription(_) => input.description.Some?
    case SetAmenities(_) => input.amenities.Some?
    case SetAvailableFrom(_) => input.availableFrom.Some?
    case SetAvailableTo(_) => input.availableTo.Some?
  }

  predicate RanksBelow(list: seq<Assignment>, k: nat) {
    forall i :: 0 <= i < |list| ==> Rank(list[i]) < k
  }

  /** `InFixedOrder` and `RanksBelow(list, k)` stated push by push: the last item comes
      before column `k` and the items before it come before the last one. */
  predicate Ascending(list: seq<Assignment>, k: nat)
    decreases |list|
  {
    list == [] || (Rank(list[|list| - 1]) < k && Ascending(list[..|list| - 1], Rank(list[|list| - 1])))
  }

  /** `OnlySupplied` stated push by push. */
  predicate AllSupplied(list: seq<Assignment>, input: PropertyInput)
    decreases |list|
  {
    list == [] || (Supplies(input, list[|list| - 1]) && AllSupplied(list[..|list| - 1], input))
  }

  lemma {:induction false} AscendingInFixedOrder(list: seq<Assignment>, k: nat)
    requires Ascending(list, k)
    ensures InFixedOrder(list) && RanksBelow(list, k)
    decreases |list|
  {
    if list != [] {
      var init, last := list[..|list| - 1], list[|list| - 1];
      AscendingInFixedOrder(init, Rank(last));
      forall i, j | 0 <= i < j < |list| ensures Rank(list[i]) < Rank(list[j]) {
        assert list[i] == init[i];
        if j < |list| - 1 {
          assert list[j] == init[j];
        }
      }
      forall i | 0 <= i < |list| ensures Rank(list[i]) < k {
        if i < |list| - 1 {
          assert list[i] == init[i];
        }
      }
    }
  }

  lemma {:induction false} AllSuppliedOnlySupplied(list: seq<Assignment>, input: PropertyInput)
    requires AllSupplied(list, input)
    ensures OnlySupplied(list, input)
    decreases |list|
  {
    if list != [] {
      var init := list[..|list| - 1];
      AllSuppliedOnlySupplied(init, input);
      forall i | 0 <= i < |list| ensures Supplies(input, list[i]) {
        if i < |list| - 1 {
          assert list[i] == init[i];
        }
      }
    }
  }

  /** What holds of the SET list after the handler has considered the first `k` columns:
      increasing columns, only supplied fields, and written into `base` it gives `expected`. */
  predicate Built(base: Property, list: seq<Assignment>, input: PropertyInput, k: nat, expected: Property) {
    Ascending(list, k) && AllSupplied(list, input) && ApplyAll(base, list) == expected
  }

  /** One `updates.push` step keeps `Built`. */
  lemma Push(base: Property, list: seq<Assignment>, input: PropertyInput, expected: Property, a: Assignment)
    requires Built(base, list, input, Rank(a), expected) && Supplies(input, a)
    ensures Built(base, list + [a], input, Rank(a) + 1, Apply(expected, a))
  {
    assert (list + [a])[..|list|] == list;
  }

  /** One `if (field !== undefined) updates.push(...)`: the item is appended exactly when the
      body supplied its field. */
  method PushIf(ghost base: Property, updates: seq<Assignment>, input: PropertyInput, ghost expected: Property,
                ghost k: nat, supplied: bool, a: Assignment) returns (next: seq<Assignment>, ghost after: Property)
    requires Built(base, updates, input, k, expected) && Rank(a) == k
    requires supplied == Supplies(input, a)
    ensures Built(base, next, input, k + 1, after)
    ensures |next| == if supplied then |updates| + 1 else |updates|
    ensures after == Step(expected, supplied, a)
  {
    if supplied {
      Push(base, updates, input, expected, a);
      next, after := updates + [a], Apply(expected, a);
    } else {
      next, after := updates, expected;
    }
  }

  /** The handler's pushes for the numeric columns, in their order. The price has already
      been checked. */
  method PushNumbers(row: Property, input: PropertyInput) returns (updates: seq<Assignment>)
    ensures Built(row, updates, input, 4, NumberSteps(row, input))
    ensures |updates| == 0 <==>
      input.price.None? && input.bedrooms.None? && input.bathrooms.None? && input.maxGuests.None?
  {
    ghost var expected := row;
    assert Built(row, [], input, 0, row);
    updates, expected := PushIf(row, [], input, expected, 0, input.price.Some?, SetPrice(input.price.GetOr(0)));
    updates, expected := PushIf(row, updates, input, expected, 1, input.bedrooms.Some?, SetBedrooms(input.bedrooms.GetOr(0)));
    updates, expected := PushIf(row, updates, input, expected, 2, input.bathrooms.Some?, SetBathrooms(input.bathrooms.GetOr(0)));
    updates, expected := PushIf(row, updates, input, expected, 3, input.maxGuests.Some?, SetMaxGuests(input.maxGuests.GetOr(0)));
  }

  /** The pushes for the name, type, location and city columns, continuing from the row
      `start` the earlier pushes give. */
  method PushNames(row: Property, input: PropertyInput, before: seq<Assignment>, ghost start: Property)
    returns (updates: seq<Assignment>)
    requires Built(row, before, input, 4, start)
    ensures Built(row, updates, input, 8, NameSteps(start, input))
    ensures |updates| == 0 <==>
      |before| == 0 && input.name.None? && input.kind.None? && input.location.None? && input.city.None?
  {
    ghost var expected := start;
    updates, expected := PushIf(row, before, input, expected, 4, input.name.Some?, SetName(input.name.GetOr("")));
    updates, expected := PushIf(row, updates, input, expected, 5, input.kind.Some?, SetKind(input.kind.GetOr("")));
    updates, expected := PushIf(row, updates, input, expected, 6, input.location.Some?, SetLocation(input.location.GetOr("")));
    updates, expected := PushIf(row, updates, input, expected, 7, input.city.Some?, SetCity(input.city.GetOr("")));
  }

  /** The pushes for the state and country columns. */
  method PushPlace(row: Property, input: PropertyInput, before: seq<Assignment>, ghost start: Property)
    returns (updates: seq<Assignment>)
    requires Built(row, before, input, 8, start)
    ensures Built(row, updates, input, 10, PlaceSteps(start, input))
    ensures |updates| == 0 <==> |before| == 0 && input.state.None? && input.country.None?
  {
    ghost var expected := start;
    updates, expected := PushIf(row, before, input, expected, 8, input.state.Some?, SetState(input.state.GetOr("")));
    updates, expected := PushIf(row, updates, input, expected, 9, input.country.Some?, SetCountry(input.country.GetOr("")));
  }

  /** The pushes for the image and description columns. */
  method PushMedia(row: Property, input: PropertyInput, before: seq<Assignment>, ghost start: Property)
    returns (updates: seq<Assignment>)
    requires Built(row, before, input, 10, start)
    ensures Built(row, updates, input, 12, MediaSteps(start, input))
    ensures |updates| == 0 <==> |before| == 0 && input.imageUrl.None? && input.description.None?
  {
    ghost var expected := start;
    updates, expected := PushIf(row, before, input, expected, 10, input.imageUrl.Some?, SetImageUrl(input.imageUrl.GetOr("")));
    updates, expected := PushIf(row, updates, input, expected, 11, input.description.Some?, SetDescription(input.description.GetOr("")));
  }

  /** The pushes for the amenities and the availability dates; the list is then complete. */
  method PushRest(row: Property, input: PropertyInput, stringify: seq<string> -> string, before: seq<Assignment>,
                  ghost start: Property) returns (updates: seq<Assignment>)
    requires Built(row, before, input, 12, start)
    ensures Built(row, updates, input, 15, RestSteps(start, input, stringify))
    ensures |updates| == 0 <==>
      |before| == 0 && input.amenities.None? && input.availableFrom.None? && input.availableTo.None?
  {
    ghost var expected := start;
    var text := PushedAmenities(input, stringify);
    updates, expected := PushIf(row, before, input, expected, 12, input.amenities.Some?, SetAmenities(text));
    updates, expected := PushIf(row, updates, input, expected, 13, input.availableFrom.Some?, SetAvailableFrom(input.availableFrom.GetOr("")));
    updates, expected := PushIf(row, updates, input, expected, 14, input.availableTo.Some?, SetAvailableTo(input.availableTo.GetOr("")));
  }

  /** All fifteen pushes of `updateProperty`: the SET list names only supplied fields, in the
      fixed column order, is empty exactly when nothing is supplied, and written into the row
      gives `Overlay`. */
  method BuildStatement(row: Property, input: PropertyInput, stringify: seq<string> -> string)
    returns (updates: seq<Assignment>)
    ensures updates == [] <==> NothingSupplied(input)
    ensures InFixedOrder(updates) && OnlySupplied(updates, input)
    ensures ApplyAll(row, updates) == Overlay(row, input, stringify)
  {
    updates := PushNumbers(row, input);
    updates := PushNames(row, input, updates, NumberSteps(row, input));
    updates := PushPlace(row, input, updates, NameSteps(NumberSteps(row, input), input));
    updates := PushMedia(row, input, updates, PlaceSteps(NameSteps(NumberSteps(row, input), input), input));
    updates := PushRest(row, input, stringify, updates,
                        MediaSteps(PlaceSteps(NameSteps(NumberSteps(row, input), input), input), input));
    PushesGiveOverlay(row, input, stringify);
    AscendingInFixedOrder(updates, 15);
    AllSuppliedOnlySupplied(updates, input);
  }

  /** One push's effect on the row being rebuilt: the item's column takes its value when
      supplied and keeps its own otherwise. */
  function Step(p: Property, supplied: bool, a: Assignment): Property {
    match a
    case SetPrice(v) => p.(price := if supplied then v else p.price)
    case SetBedrooms(v) => p.(bedrooms := if supplied then v else p.bedrooms)
    case SetBathrooms(v) => p.(bathrooms := if supplied then v else p.bathrooms)
    case SetMaxGuests(v) => p.(maxGuests := if supplied then v else p.maxGuests)
    case SetName(v) => p.(name := if supplied then v else p.name)
    case SetKind(v) => p.(kind := if supplied then v else p.kind)
    case SetLocation(v) => p.(location := if supplied then v else p.location)
    case SetCity(v) => p.(city := if supplied then v else p.city)
    case SetState(v) => p.(state := if supplied then Some(v) else p.state)
    case SetCountry(v) => p.(country := if supplied then v else p.country)
    case SetImageUrl(v) => p.(imageUrl := if supplied then v else p.imageUrl)
    case SetDescription(v) => p.(description := if supplied then v else p.description)
    case SetAmenities(v) => p.(amenities := if supplied then v else p.amenities)
    case SetAvailableFrom(v) => p.(availableFrom := if supplied then Some(v) else p.availableFrom)
    case SetAvailableTo(v) => p.(availableTo := if supplied then Some(v) else p.availableTo)
  }

  /** The effect of each group of pushes on the row being rebuilt. */
  function NumberSteps(p: Property, input: PropertyInput): Property {
    Step(Step(Step(Step(p, input.price.Some?, SetPrice(input.price.GetOr(0))),
                   input.bedrooms.Some?, SetBedrooms(input.bedrooms.GetOr(0))),
              input.bathrooms.Some?, SetBathrooms(input.bathrooms.GetOr(0))),
         input.maxGuests.Some?, SetMaxGuests(input.maxGuests.GetOr(0)))
  }

  function NameSteps(p: Property, input: PropertyInput): Property {
    Step(Step(Step(Step(p, input.name.Some?, SetName(input.name.GetOr(""))),
                   input.kind.Some?, SetKind(input.kind.GetOr(""))),
              input.location.Some?, SetLocation(input.location.GetOr(""))),
         input.city.Some?, SetCity(input.city.GetOr("")))
  }

  function PlaceSteps(p: Property, input: PropertyInput): Property {
    Step(Step(p, input.state.Some?, SetState(input.state.GetOr(""))),
         input.country.Some?, SetCountry(input.country.GetOr("")))
  }

  function MediaSteps(p: Property, input: PropertyInput): Property {
    Step(Step(p, input.imageUrl.Some?, SetImageUrl(input.imageUrl.GetOr(""))),
         input.description.Some?, SetDescription(input.description.GetOr("")))
  }

  /** The amenities text the handler pushes, when the body supplies amenities. */
  function PushedAmenities(input: PropertyInput, stringify: seq<string> -> string): string {
    if input.amenities.Some? then UpdatedAmenities(input.amenities.value, stringify) else ""
  }

  function RestSteps(p: Property, input: PropertyInput, stringify: seq<string> -> string): Property {
    Step(Step(Step(p, input.amenities.Some?, SetAmenities(PushedAmenities(input, stringify))),
              input.availableFrom.Some?, SetAvailableFrom(input.availableFrom.GetOr(""))),
         input.availableTo.Some?, SetAvailableTo(input.availableTo.GetOr("")))
  }

  /** `Overlay` restricted to the first four, eight and twelve columns. */
  function Overlay4(p: Property, input: PropertyInput): Property {
    p.(price := input.price.GetOr(p.price), bedrooms := input.bedrooms.GetOr(p.bedrooms),
       bathrooms := input.bathrooms.GetOr(p.bathrooms), maxGuests := input.maxGuests.GetOr(p.maxGuests))
  }

  function Overlay8(p: Property, input: PropertyInput): Property {
    var q := Overlay4(p, input);
    q.(name := input.name.GetOr(q.name), kind := input.kind.GetOr(q.kind),
       location := input.location.GetOr(q.location), city := input.city.GetOr(q.city))
  }

  function Overlay12(p: Property, input: PropertyInput): Property {
    var q := Overlay8(p, input);
    q.(state := if input.state.Some? then input.state else q.state,
       country := input.country.GetOr(q.country), imageUrl := input.imageUrl.GetOr(q.imageUrl),
       description := input.description.GetOr(q.description))
  }

  /** Each group of pushes extends the overlay of the columns before it. */
  lemma NumberStepsOverlay(p: Property, input: PropertyInput)
    ensures NumberSteps(p, input) == Overlay4(p, input)
  {
  }

  lemma NameStepsOverlay(p: Property, input: PropertyInput)
    ensures NameSteps(Overlay4(p, input), input) == Overlay8(p, input)
  {
  }

  lemma DetailStepsOverlay(p: Property, input: PropertyInput)
    ensures MediaSteps(PlaceSteps(Overlay8(p, input), input), input) == Overlay12(p, input)
  {
  }

  lemma RestStepsOverlay(p: Property, input: PropertyInput, stringify: seq<string> -> string)
    ensures RestSteps(Overlay12(p, input), input, stringify) == Overlay(p, input, stringify)
  {
  }

  /** The fifteen pushes, in the handler's order, rebuild the reference row `Overlay`. */
  lemma PushesGiveOverlay(p: Property, input: PropertyInput, stringify: seq<string> -> string)
    ensures RestSteps(MediaSteps(PlaceSteps(NameSteps(NumberSteps(p, input), input), input), input), input, stringify)
            == Overlay(p, input, stringify)
  {
    NumberStepsOverlay(p, input);
    NameStepsOverlay(p, input);
    DetailStepsOverlay(p, input);
    RestStepsOverlay(p, input, stringify);
  }

  /** An update leaves the id and the owner alone. The effect on the other columns is
      `Overlay`; it does not check bedrooms, bathrooms or guests, so an update can store counts
      that `createProperty` would refuse. */
  lemma OverlayKeepsIdentity(p: Property, input: PropertyInput, stringify: seq<string> -> string)
    ensures Overlay(p, input, stringify).id == p.id && Overlay(p, input, stringify).ownerId == p.ownerId
    ensures NothingSupplied(input) ==> Overlay(p, input, stringify) == p
  {
  }

  lemma UpdateCanStoreZeroBedrooms(p: Property, input: PropertyInput, stringify: seq<string> -> string)
    requires input.bedrooms == Some(0)
    ensures !WellFormedRow(Overlay(p, input, stringify))
  {
  }

  /** Does the row carry this id? */
  predicate HasId(rows: seq<Property>, id: nat) {
    exists i :: 0 <= i < |rows| && rows[i].id == id
  }

  /** The row with this id. */
  function Find(rows: seq<Property>, id: nat): (r: Option<Property>)
    ensures r.Some? <==> HasId(rows, id)
    ensures r.Some? ==> r.value in rows && r.value.id == id
  {
    if rows == [] then None
    else if rows[0].id == id then Some(rows[0])
    else
      var rest := Find(rows[1..], id);
      assert HasId(rows, id) ==> rows[0].id == id || HasId(rows[1..], id) by {
        if HasId(rows, id) {
          var i :| 0 <= i < |rows| && rows[i].id == id;
          if i > 0 { assert rows[1..][i - 1].id == id; }
        }
      }
      rest
  }

  /** The rows with the row carrying `id` replaced. */
  function Replace(rows: seq<Property>, id: nat, p: Property): (r: seq<Property>)
    ensures |r| == |rows|
    ensures forall i :: 0 <= i < |rows| ==> r[i] == (if rows[i].id == id then p else rows[i])
  {
    seq(|rows|, i requires 0 <= i < |rows| => if rows[i].id == id then p else rows[i])
  }

  /** Ids strictly decrease along the rows (the newest row comes first) and stay below `bound`. */
  predicate NewestFirst(rows: seq<Property>, bound: nat) {
    (forall i, j :: 0 <= i < j < |rows| ==> rows[i].id > rows[j].id)
    && (forall i :: 0 <= i < |rows| ==> rows[i].id < bound)
  }

  lemma {:induction false} FilterKeepsNewestFirst(rows: seq<Property>, bound: nat, keep: Property -> bool)
    requires NewestFirst(rows, bound)
    ensures NewestFirst(Filter(rows, keep), bound)
  {
    if rows != [] {
      assert NewestFirst(rows[1..], bound);
      FilterKeepsNewestFirst(rows[1..], bound, keep);
      var rest := Filter(rows[1..], keep);
      forall j | 0 <= j < |rest|
        ensures rows[0].id > rest[j].id
      {
        assert rest[j] in rows[1..];
      }
    }
  }

  /** The properties table, newest row first, with the next auto-increment id. */
  class PropertyTable {
    var rows: seq<Property>
    var nextId: nat

    ghost predicate Valid()
      reads this
    {
      nextId >= 1 && NewestFirst(rows, nextId)
    }

    constructor ()
      ensures Valid() && rows == [] && nextId == 1
    {
      rows := [];
      nextId := 1;
    }

    /** `GET /properties/:id`: a route id that is not a plain number is refused with 400, a
        missing row with 404. */
    function GetPropertyById(idText: string): (r: Reply<Property>)
      reads this
      ensures NumericId(idText).None? ==> r == Fail(400, InvalidPropertyId)
      ensures NumericId(idText).Some? && !HasId(rows, NumericId(idText).value) ==> r == Fail(404, PropertyNotFound)
      ensures r.Ok? <==> NumericId(idText).Some? && HasId(rows, NumericId(idText).value)
      ensures r.Ok? ==> r.status == 200 && r.body in rows && r.body.id == NumericId(idText).value
    {
      match NumericId(idText)
      case None => Fail(400, InvalidPropertyId)
      case Some(id) =>
        match Find(rows, id)
        case None => Fail(404, PropertyNotFound)
        case Some(p) => Ok(200, p)
    }

    /** The signed-in owner's properties, newest first. */
    function GetOwnerProperties(ownerId: Option<nat>): (r: Reply<seq<Property>>)
      reads this
      ensures !IsSet(ownerId) ==> r == Fail(401, NotAuthenticated)
      ensures IsSet(ownerId) ==> r.Ok? && r.status == 200
      ensures r.Ok? ==> forall p :: p in r.body <==> p in rows && p.ownerId == ownerId.value
      ensures r.Ok? && Valid() ==> NewestFirst(r.body, nextId)
    {
      if !IsSet(ownerId) then Fail(401, NotAuthenticated)
      else
        var mine := Filter(rows, (p: Property) => p.ownerId == ownerId.value);
        assert Valid() ==> NewestFirst(mine, nextId) by {
          if Valid() {
            FilterKeepsNewestFirst(rows, nextId, (p: Property) => p.ownerId == ownerId.value);
          }
        }
        Ok(200, mine)
    }

    /** `POST /properties`: 401 without an owner, 400 for a missing field, a non-positive
        number or a bad availability date, in that order; otherwise the new row under the next
        id, answered with 201. */
    method CreateProperty(ownerId: Option<nat>, input: PropertyInput, stringify: seq<string> -> string)
      returns (r: Reply<Property>)
      requires Valid()
      modifies this
      ensures Valid()
      ensures !IsSet(ownerId) ==> r == Fail(401, NotAuthenticated)
      ensures (IsSet(ownerId) && !HasRequiredFields(input)) ==>
        r == Fail(400, MissingFields)
      ensures (IsSet(ownerId) && HasRequiredFields(input) && !HasPositiveNumbers(input)) ==>
        r == Fail(400, NonPositiveNumbers)
      ensures (IsSet(ownerId) && HasRequiredFields(input) && HasPositiveNumbers(input)
               && DateRefusal(input.availableFrom, input.availableTo).Some?) ==>
        r == Fail(400, DateRefusal(input.availableFrom, input.availableTo).value)
      ensures r.Fail? ==> rows == old(rows) && nextId == old(nextId)
      ensures r.Ok? <==>
        IsSet(ownerId) && HasRequiredFields(input) && HasPositiveNumbers(input)
        && DateRefusal(input.availableFrom, input.availableTo).None?
      ensures r.Ok? ==>
        && r.status == 201
        && r.body == NewRow(old(nextId), ownerId.value, input, stringify)
        && rows == [r.body] + old(rows) && nextId == old(nextId) + 1
        && WellFormedRow(r.body)
    {
      if !IsSet(ownerId) {
        return Fail(401, NotAuthenticated);
      }
      if !HasRequiredFields(input) {
        return Fail(400, MissingFields);
      }
      if !HasPositiveNumbers(input) {
        return Fail(400, NonPositiveNumbers);
      }
      var refusal := DateRefusal(input.availableFrom, input.availableTo);
      if refusal.Some? {
        return Fail(400, refusal.value);
      }
      var row := NewRow(nextId, ownerId.value, input, stringify);
      NewRowWellFormed(nextId, ownerId.value, input, stringify);
      Insert(row);
      r := Ok(201, row);
    }

    /** The INSERT: the new row takes the next id and comes first. */
    method Insert(row: Property)
      requires Valid() && row.id == nextId
      modifies this
      ensures Valid() && rows == [row] + old(rows) && nextId == old(nextId) + 1
    {
      rows := [row] + rows;
      nextId := nextId + 1;
    }

    /** `PUT /properties/:id`: 401, then 404, then 403 for another owner's row, then the date
        and price checks, then 400 when nothing is supplied; otherwise the SET list is written
        into the row. `statement` is that SET list (the row id is the statement's last
        parameter), empty when no statement is issued. */
    method UpdateProperty(ownerId: Option<nat>, id: nat, input: PropertyInput, stringify: seq<string> -> string)
      returns (r: Reply<Property>, statement: seq<Assignment>)
      requires Valid()
      modifies this
      ensures Valid() && nextId == old(nextId)
      ensures !IsSet(ownerId) ==> r == Fail(401, NotAuthenticated)
      ensures (IsSet(ownerId) && !HasId(old(rows), id)) ==> r == Fail(404, PropertyNotFound)
      ensures (IsSet(ownerId) && HasId(old(rows), id) && Find(old(rows), id).value.ownerId != ownerId.value) ==>
        r == Fail(403, NotYourPropertyToUpdate)
      ensures (IsSet(ownerId) && HasId(old(rows), id) && Find(old(rows), id).value.ownerId == ownerId.value) ==>
        && (DateRefusal(input.availableFrom, input.availableTo).Some? ==>
              r == Fail(400, DateRefusal(input.availableFrom, input.availableTo).value))
        && ((DateRefusal(input.availableFrom, input.availableTo).None? && input.price.Some? && input.price.value <= 0) ==>
              r == Fail(400, PriceNotPositive))
        && ((DateRefusal(input.availableFrom, input.availableTo).None? && NothingSupplied(input)) ==>
              r == Fail(400, NothingToUpdate))
      ensures r.Fail? ==> rows == old(rows) && statement == []
      ensures r.Ok? <==>
        IsSet(ownerId) && HasId(old(rows), id) && Find(old(rows), id).value.ownerId == ownerId.value
        && DateRefusal(input.availableFrom, input.availableTo).None?
        && !(input.price.Some? && input.price.value <= 0)
        && !NothingSupplied(input)
      ensures r.Ok? ==>
        && r.status == 200
        && statement != [] && InFixedOrder(statement) && OnlySupplied(statement, input)
        && r.body == ApplyAll(Find(old(rows), id).value, statement)
        && r.body == Overlay(Find(old(rows), id).value, input, stringify)
        && rows == Replace(old(rows), id, r.body)
    {
      statement := [];
      if !IsSet(ownerId) {
        return Fail(401, NotAuthenticated), [];
      }
      var found := Find(rows, id);
      if found.None? {
        return Fail(404, PropertyNotFound), [];
      }
      var row := found.value;
      if row.ownerId != ownerId.value {
        return Fail(403, NotYourPropertyToUpdate), [];
      }
      var refusal := DateRefusal(input.availableFrom, input.availableTo);
      if refusal.Some? {
        return Fail(400, refusal.value), [];
      }
      if input.price.Some? && input.price.value <= 0 {
        return Fail(400, PriceNotPositive), [];
      }
      var updates := BuildStatement(row, input, stringify);
      if updates == [] {
        return Fail(400, NothingToUpdate), [];
      }
      var updated := ApplyAll(row, updates);
      ReplaceKeepsNewestFirst(rows, nextId, id, updated);
      rows := Replace(rows, id, updated);
      r, statement := Ok(200, updated), updates;
    }

    /** `DELETE /properties/:id`: 401, then 404, then 403 for another owner's row; otherwise
        the row is removed and every other row stays. */
    method DeleteProperty(ownerId: Option<nat>, id: nat) returns (r: Reply<()>)
      requires Valid()
      modifies this
      ensures Valid() && nextId == old(nextId)
      ensures !IsSet(ownerId) ==> r == Fail(401, NotAuthenticated)
      ensures (IsSet(ownerId) && !HasId(old(rows), id)) ==> r == Fail(404, PropertyNotFound)
      ensures (IsSet(ownerId) && HasId(old(rows), id) && Find(old(rows), id).value.ownerId != ownerId.value) ==>
        r == Fail(403, NotYourPropertyToDelete)
      ensures r.Fail? ==> rows == old(rows)
      ensures r.Ok? <==> IsSet(ownerId) && HasId(old(rows), id) && Find(old(rows), id).value.ownerId == ownerId.value
      ensures r.Ok? ==>
        && r.status == 200
        && rows == Filter(old(rows), (p: Property) => p.id != id)
        && !HasId(rows, id)
    {
      if !IsSet(ownerId) {
        return Fail(401, NotAuthenticated);
      }
      var found := Find(rows, id);
      if found.None? {
        return Fail(404, PropertyNotFound);
      }
      if found.value.ownerId != ownerId.value {
        return Fail(403, NotYourPropertyToDelete);
      }
      FilterKeepsNewestFirst(rows, nextId, (p: Property) => p.id != id);
      rows := Filter(rows, (p: Property) => p.id != id);
      r := Ok(200, ());
    }
  }

  lemma ReplaceKeepsNewestFirst(rows: seq<Property>, bound: nat, id: nat, p: Property)
    requires NewestFirst(rows, bound) && p.id == id
    ensures NewestFirst(Replace(rows, id, p), bound)
  {
  }
}

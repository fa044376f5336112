/** The owner's add/edit property form: the amenity checkboxes, the reading of a loaded
    property's amenities, and the submit checks with the payload they send. */
module OwnerPropertyForm {
  import opened Wrappers
  import opened Text
  import PropertyController

  /** The form's state. `price` is None while its input holds the initial empty text; the
      other numbers are whole numbers. */
  datatype PropertyForm = PropertyForm(
    name: string,
    kind: string,
    location: string,
    city: string,
    state: string,
    country: string,
    price: Option<int>,
    bedrooms: int,
    bathrooms: int,
    maxGuests: int,
    imageUrl: string,
    description: string,
    amenities: seq<string>,
    availableFrom: string,
    availableTo: string)

  /** The form as a new property starts. */
  const InitialForm := PropertyForm("", "", "", "", "", "", None, 1, 1, 1, "", "", [], "", "")

  // ---------------------------------------------------------------------------------------
  // handleAmenityToggle

  /** The toggle's list update: a ticked amenity is removed (every copy of it), an unticked
      one is appended. */
  function Toggle(amenities: seq<string>, a: string): (r: seq<string>)
    ensures a in amenities ==> r == Filter(amenities, (x: string) => x != a)
    ensures a !in amenities ==> r == amenities + [a]
    ensures a in r <==> a !in amenities
    ensures forall b :: b != a ==> (b in r <==> b in amenities)
  {
    if a in amenities then Filter(amenities, (x: string) => x != a) else amenities + [a]
  }

  /** `handleAmenityToggle`: only the amenities change. */
  function ToggleAmenity(form: PropertyForm, a: string): (r: PropertyForm)
    ensures r.(amenities := form.amenities) == form
    ensures (a in r.amenities) <==> (a !in form.amenities)
  {
    form.(amenities := Toggle(form.amenities, a))
  }

  /** Removing an element that was appended to a list without it gives the list back. */
  lemma {:induction false} FilterDropsAppended(xs: seq<string>, a: string)
    requires a !in xs
    ensures Filter(xs + [a], (x: string) => x != a) == xs
  {
    if xs == [] {
      assert [] + [a] == [a];
    } else {
      assert (xs + [a])[1..] == xs[1..] + [a];
      FilterDropsAppended(xs[1..], a);
    }
  }

  /** Ticking an unticked amenity and unticking it again restores the list, order included. */
  lemma ToggleTwiceRestores(amenities: seq<string>, a: string)
    requires a !in amenities
    ensures Toggle(Toggle(amenities, a), a) == amenities
  {
    FilterDropsAppended(amenities, a);
  }

  /** Starting from a ticked amenity the first toggle removes it and the second appends it at
      the end, so the order comes back only when it was already last. */
  lemma ToggleTwiceFromTicked(amenities: seq<string>, a: string)
    requires a in amenities
    ensures Toggle(Toggle(amenities, a), a) == Filter(amenities, (x: string) => x != a) + [a]
    ensures amenities[|amenities| - 1] != a ==> Toggle(Toggle(amenities, a), a) != amenities
  {
    var once := Filter(amenities, (x: string) => x != a);
    assert a !in once;
    var twice := once + [a];
    if amenities[|amenities| - 1] != a {
      assert twice[|twice| - 1] == a;
    }
  }

  // ---------------------------------------------------------------------------------------
  // amenities of a loaded property (fetchProperty)

  /** What `property.amenities` holds in a loaded property: undefined or null, a text, an
      array, or some other value. */
  datatype LoadedAmenities = Absent | AsText(text: string) | AsList(items: seq<string>) | Other

  /** The list the form starts from: an array as it is; a non-empty text as `JSON.parse`
      reads it, or, when it throws, split on ',' with each piece trimmed; anything else [].
      `jsonParse` is `JSON.parse` restricted to texts of string arrays (None: it throws). */
  function ParseAmenities(loaded: LoadedAmenities, jsonParse: string -> Option<seq<string>>): (r: seq<string>)
    ensures loaded.Absent? || loaded.Other? || loaded == AsText("") ==> r == []
    ensures loaded.AsList? ==> r == loaded.items
    ensures loaded.AsText? && loaded.text != "" && jsonParse(loaded.text).Some? ==> r == jsonParse(loaded.text).value
    ensures loaded.AsText? && loaded.text != "" && jsonParse(loaded.text).None? ==>
      |r| == |Split(loaded.text, ',')|
      && forall i :: 0 <= i < |r| ==> r[i] == Trim(Split(loaded.text, ',')[i]) && ',' !in r[i]
  {
    match loaded
    case Absent => []
    case Other => []
    case AsList(items) => items
    case AsText(s) =>
      if s == "" then []
      else match jsonParse(s)
        case Some(items) => items
        case None => TrimAll(Split(s, ','))
  }

  /** Read back piece by piece, the fallback pieces (before trimming) join into the stored
      text again. */
  lemma FallbackPiecesCoverText(s: string)
    ensures Join(Split(s, ','), ",") == s
  {
    SplitJoin(s, ',');
  }

  // ---------------------------------------------------------------------------------------
  // handleSubmit

  /** The submitted body: the form's fields with the amenities as the JSON text of the list. */
  datatype Payload = Payload(
    name: string,
    kind: string,
    location: string,
    city: string,
    state: string,
    country: string,
    price: Option<int>,
    bedrooms: int,
    bathrooms: int,
    maxGuests: int,
    imageUrl: string,
    description: string,
    amenities: string,
    availableFrom: string,
    availableTo: string)

  /** `{ ...form, amenities: JSON.stringify(form.amenities) }`. */
  function PayloadOf(form: PropertyForm, stringify: seq<string> -> string): (r: Payload)
    ensures r.amenities == stringify(form.amenities)
    ensures r.name == form.name && r.kind == form.kind && r.location == form.location
    ensures r.city == form.city && r.state == form.state && r.country == form.country
    ensures r.price == form.price && r.bedrooms == form.bedrooms && r.bathrooms == form.bathrooms
    ensures r.maxGuests == form.maxGuests && r.imageUrl == form.imageUrl && r.description == form.description
    ensures r.availableFrom == form.availableFrom && r.availableTo == form.availableTo
  {
    Payload(form.name, form.kind, form.location, form.city, form.state, form.country, form.price,
            form.bedrooms, form.bathrooms, form.maxGuests, form.imageUrl, form.description,
            stringify(form.amenities), form.availableFrom, form.availableTo)
  }

  /** A stored amenities text that came from this form's payload reads back as the list that
      was sent, when `JSON.parse` undoes `JSON.stringify`. */
  lemma PayloadAmenitiesReadBack(form: PropertyForm, stringify: seq<string> -> string,
                                 jsonParse: string -> Option<seq<string>>)
    requires stringify(form.amenities) != ""
    requires jsonParse(stringify(form.amenities)) == Some(form.amenities)
    ensures ParseAmenities(AsText(PayloadOf(form, stringify).amenities), jsonParse) == form.amenities
  {
  }

  /** The alert a submit stops at, checks in order: the room and guest counts, then the price.
      An empty price text compares as 0 and passes. */
  function SubmitRefusal(form: PropertyForm): (r: Option<string>)
    ensures form.bedrooms < 1 || form.bathrooms < 1 || form.maxGuests < 1 ==>
      r == Some("Bedrooms, bathrooms, and max guests must be at least 1.")
    ensures form.bedrooms >= 1 && form.bathrooms >= 1 && form.maxGuests >= 1 && form.price.Some? && form.price.value < 0 ==>
      r == Some("Price cannot be negative.")
    ensures r.None? <==>
      form.bedrooms >= 1 && form.bathrooms >= 1 && form.maxGuests >= 1 && !(form.price.Some? && form.price.value < 0)
  {
    if form.bedrooms < 1 || form.bathrooms < 1 || form.maxGuests < 1 then
      Some("Bedrooms, bathrooms, and max guests must be at least 1.")
    else if form.price.Some? && form.price.value < 0 then Some("Price cannot be negative.")
    else None
  }

  /** The backend input the payload becomes: every field is in the body, the untouched price
      posted as the empty text, which the backend's `Number("")` reads as 0. */
  function AsInput(p: Payload): (r: PropertyController.PropertyInput)
    ensures !PropertyController.NothingSupplied(r) && r.price.Some?
    ensures p.price.Some? ==> r.price == p.price
    ensures p.price.None? ==> r.price == Some(0)
    ensures r.name == Some(p.name) && r.kind == Some(p.kind) && r.city == Some(p.city)
    ensures r.country == Some(p.country) && r.bedrooms == Some(p.bedrooms)
    ensures r.bathrooms == Some(p.bathrooms) && r.maxGuests == Some(p.maxGuests)
    ensures r.amenities == Some(PropertyController.AmenitiesText(p.amenities))
    ensures r.availableFrom == Some(p.availableFrom) && r.availableTo == Some(p.availableTo)
  {
    PropertyController.PropertyInput(
      Some(p.name), Some(p.kind), Some(p.location), Some(p.city), Some(p.state), Some(p.country),
      Some(if p.price.Some? then p.price.value else 0), Some(p.bedrooms), Some(p.bathrooms),
      Some(p.maxGuests), Some(p.imageUrl), Some(p.description),
      Some(PropertyController.AmenitiesText(p.amenities)), Some(p.availableFrom), Some(p.availableTo))
  }

  /** A form whose price was never typed passes the form's own checks with valid counts, but
      the backend refuses it: create for non-positive numbers (when the four texts are there),
      update for a non-positive price. */
  lemma UntouchedPriceRefused(form: PropertyForm, stringify: seq<string> -> string)
    requires form.price.None?
    ensures SubmitRefusal(form).None? <==> form.bedrooms >= 1 && form.bathrooms >= 1 && form.maxGuests >= 1
    ensures var input := AsInput(PayloadOf(form, stringify));
      && (PropertyController.HasRequiredFields(input) <==>
            form.name != "" && form.kind != "" && form.city != "" && form.country != "")
      && (PropertyController.HasRequiredFields(input) ==> !PropertyController.HasPositiveNumbers(input))
      && input.price.Some? && input.price.value <= 0
  {
  }

  /** The form lets a price of 0 through, while the backend's create refuses any price that
      is not positive. */
  lemma FreePropertyPassesFormOnly(stringify: seq<string> -> string)
    ensures var form := InitialForm.(name := "Loft", kind := "Loft", city := "Austin", country := "USA", price := Some(0));
      && SubmitRefusal(form).None?
      && PropertyController.HasRequiredFields(AsInput(PayloadOf(form, stringify)))
      && !PropertyController.HasPositiveNumbers(AsInput(PayloadOf(form, stringify)))
  {
  }

  /** An HTTP request the form sends. */
  datatype Request = Put(path: string, body: Payload) | Post(path: string, body: Payload)

  /** The alerts after the request. */
  const PropertyUpdated := "Property updated successfully!"
  const PropertyCreated := "Property created successfully!"
  const SavingFailed := "Error saving property. Please try again."

  /** The form page: its state, the busy flag, and the route it shows. */
  class FormPage {
    var form: PropertyForm
    var submitting: bool
    var route: string

    constructor (route: string)
      ensures form == InitialForm && !submitting && this.route == route
    {
      form, submitting, this.route := InitialForm, false, route;
    }

    /** A checkbox click. */
    method HandleAmenityToggle(a: string)
      modifies this
      ensures form == ToggleAmenity(old(form), a)
      ensures submitting == old(submitting) && route == old(route)
    {
      form := form.(amenities := Toggle(form.amenities, a));
    }

    /** `handleSubmit`: a refused form raises its alert and sends nothing; otherwise an edit
        PUTs and a new property POSTs the payload, a success goes to the owner's property
        list, and the busy flag is cleared either way. `succeeds` is the request's outcome. */
    method HandleSubmit(propertyId: Option<string>, stringify: seq<string> -> string, succeeds: bool)
      returns (sent: Option<Request>, alert: string)
      modifies this
      ensures form == old(form)
      ensures SubmitRefusal(old(form)).Some? ==>
        sent.None? && alert == SubmitRefusal(old(form)).value && submitting == old(submitting) && route == old(route)
      ensures SubmitRefusal(old(form)).None? ==> !submitting
      ensures SubmitRefusal(old(form)).None? && propertyId.Some? && propertyId.value != "" ==>
        sent == Some(Put("/owner/properties/" + propertyId.value, PayloadOf(form, stringify)))
      ensures SubmitRefusal(old(form)).None? && !(propertyId.Some? && propertyId.value != "") ==>
        sent == Some(Post("/owner/properties", PayloadOf(form, stringify)))
      ensures SubmitRefusal(old(form)).None? ==>
        route == if succeeds then "/owner/properties" else old(route)
      ensures SubmitRefusal(old(form)).None? && succeeds ==>
        alert == if propertyId.Some? && propertyId.value != "" then PropertyUpdated else PropertyCreated
      ensures SubmitRefusal(old(form)).None? && !succeeds ==> alert == SavingFailed
    {
      var refusal := SubmitRefusal(form);
      if refusal.Some? {
        return None, refusal.value;
      }
      submitting := true;
      var payload := PayloadOf(form, stringify);
      var isEdit := propertyId.Some? && propertyId.value != "";
      if isEdit {
        sent := Some(Put("/owner/properties/" + propertyId.value, payload));
      } else {
        sent := Some(Post("/owner/properties", payload));
      }
      if succeeds {
        alert := if isEdit then PropertyUpdated else PropertyCreated;
        route := "/owner/properties";
      } else {
        alert := SavingFailed;
      }
      submitting := false;
    }
  }
}

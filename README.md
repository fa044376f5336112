# Rental marketplace: a verified model of its decision logic

This project models, in Dafny, the decision procedures of a vacation-rental marketplace. The
system has three parts:

- an Express backend over SQL (travelers, owners, properties, bookings, favourites);
- a React front end;
- a Python travel-planning agent.

The model covers three groups of code:

- **Backend and validation.** The field validators; the session guards; traveler and owner
  signup, login and profile update; property search, create, update and delete; an owner's
  booking cancellation; and the favourites handlers.
- **Front end.** The property page's price total and booking form; the owner property
  form's amenity toggle, amenity parsing and submit; the owner signup page; the booking
  status colours; and the two Redux login slices.
- **Agent.** The deterministic text and list builders: the search result formatter, the
  activity tag summary, the fallback lists and the caps of the final plan.

Tables are in-memory values:

- Travelers and owners are sequences: the row at index i has id i + 1.
- Properties are a sequence, newest row first, with the next auto-increment id.
- Bookings are a map from id to row.
- Favourites are a sequence, newest first.

Handlers that change a table are methods with a `modifies` clause on it. The property, booking
and favourite handlers are methods of the class that holds their table. The traveler and owner
account handlers, and those of the traveler router, are module-level methods. They take the
`TravelerTable` or `OwnerTable` they change. Each method states what it answers and the whole
new state. Pure helpers are functions; lemmas
relate them to reference definitions.

Sessions are values passed in and returned. Dates are day numbers: `ParseDate` models the
engine's reading of a `YYYY-MM-DD` text, including its rollover of day 31 in short months.

Several things the handlers call are parameters of the model:

- the bcrypt hash (the hash produced at signup) and bcrypt compare;
- `JSON.stringify` and `JSON.parse`;
- the outcome of a front-end HTTP request;
- the clock (`now`).

Modules, one per file:

| file | module | models |
|---|---|---|
| wrappers.dfy | Wrappers | `Option` |
| http.dfy | Http | `Reply`: an error status with message, or a status with body |
| text.dfy | Text | JavaScript string helpers (truthiness, `trim`, `split`, `parseInt`, lower case) |
| validation.dfy | Validation | backend/utils/validation.js |
| auth.dfy | Auth | backend/middleware/auth.js |
| set_lists.dfy | SetLists | the `updates.push` SET lists of the profile updates |
| accounts.dfy | Accounts | the travelers and owners tables |
| traveler_controller.dfy | TravelerController | backend/controllers/travelerController.js |
| owner_controller.dfy | OwnerController | backend/controllers/ownerController.js |
| traveler_routes.dfy | TravelerRoutes | backend/routes/travelerRoutes.js |
| bookings.dfy | Bookings | backend/controllers/bookingController.js |
| property_controller.dfy | PropertyController | backend/controllers/propertyController.js |
| favorites.dfy | Favorites | backend/controllers/favoriteController.js |
| property_details.dfy | PropertyDetails | frontend/src/features/property/PropertyDetails.js |
| owner_property_form.dfy | OwnerPropertyForm | frontend/src/features/owner/OwnerPropertyForm.js |
| owner_signup.dfy | OwnerSignup | frontend/src/features/owner/OwnerSignup.js |
| traveler_bookings.dfy | TravelerBookings | frontend/src/features/traveler/TravelerBookings.js |
| slices.dfy | Slices | OwnerSlice.js and travelerSlice.js |
| prompts.dfy | Prompts | ai-agent/prompts.py |
| agent.dfy | Agent | ai-agent/agent.py |

## Model

| member | source | states |
|---|---|---|
| Text.ParseInt | backend/controllers/propertyController.js:89 | `parseInt(guests, 10)`: leading whitespace skipped, an optional sign, then the longest run of decimal digits; NaN when no digit follows |
| Text.Trim | frontend/src/features/owner/OwnerSignup.js:32 | `String.prototype.trim`: the result is the slice of the text left after cutting whitespace only from its two ends; it starts and ends with non-whitespace, and is empty exactly when the text is all whitespace |
| Text.ParseIntMeaning | backend/controllers/propertyController.js:88-94 | `parseInt(guests, 10)` reads a plain decimal number as its value and is NaN for a text with no digit at all |
| Text.NumericId | backend/controllers/propertyController.js:113-115 | a route id counts as a number exactly when it is a non-empty text of decimal digits |
| Validation.IsValidEmail | backend/utils/validation.js:2-5 | `^[^\s@]+@[^\s@]+\.[^\s@]+$`: the address splits at an '@' and a later '.' into three non-empty pieces free of '@' and whitespace |
| Validation.EmailCharacterization | backend/utils/validation.js:2-5 | the e-mail pattern accepts exactly the texts with one '@', no whitespace, a non-empty local part, and a domain with a '.' that is neither its first nor its last character |
| Validation.EmailSplitByParts | backend/utils/validation.js:2-5 | any three-piece match of the pattern meets the plain-words reading |
| Validation.EmailByPartsSplit | backend/utils/validation.js:2-5 | any address meeting the plain-words reading has a three-piece match |
| Validation.IndexOf | backend/utils/validation.js:3 | the position of the first '@' (or the length when there is none): no earlier character is '@' |
| Validation.CountCharAppend | backend/utils/validation.js:3 | the '@' count of a concatenation is the sum of the counts, used for the "exactly one '@'" reading |
| Validation.CountCharZero | backend/utils/validation.js:3 | a count of zero means the character does not occur |
| Validation.ParseDate | backend/utils/validation.js:12-13 | the engine produces a date only for a text of `YYYY-MM-DD` shape |
| Validation.DayNumberNextDay | backend/utils/validation.js:12-13 | the day numbering of parsed dates is contiguous: the last day of a month is followed by the first of the next, and 31 December by 1 January |
| Validation.DaysBeforeNextYear | backend/utils/validation.js:12-13 | the twelve months add up to the length of the year |
| Validation.IsValidDate | backend/utils/validation.js:8-14 | a valid date has length 10, '-' at positions 4 and 7 and ASCII digits elsewhere; it is valid exactly when the engine parses it |
| Validation.IsValidStateCode | backend/utils/validation.js:17-20 | true exactly for two ASCII letters, in either case |
| Validation.IsEndDateAfterStartDate | backend/utils/validation.js:23-25 | true only when both dates parse |
| Validation.EndAfterStartIsStrict | backend/utils/validation.js:23-25 | equal dates give false; the order is asymmetric and transitive |
| Validation.CeilDivOfWholeDays | backend/utils/validation.js:32 | `Math.ceil` of a whole number of days in milliseconds over a day's length is that number of days |
| Validation.CalculateNights | backend/utils/validation.js:28-34 | a number is produced exactly when both dates parse |
| Validation.NightsIsDayDistance | backend/utils/validation.js:28-34 | for valid dates the night count is the absolute difference of the day numbers, so it is symmetric, never negative and 0 for one date |
| Auth.RequireTravelerAuth | backend/middleware/auth.js:2-10 | passes (calls `next`) exactly when the session has a truthy `travelerId`; otherwise 401 |
| Auth.RequireOwnerAuth | backend/middleware/auth.js:13-21 | the same keyed on `ownerId` |
| Auth.GuardsReadOnlyTheirKey | backend/middleware/auth.js:2-21 | each guard's answer depends only on its own key; an owner-only session fails the traveler guard and a traveler-only session fails the owner guard |
| SetLists.ExpectedOrdered | backend/controllers/travelerController.js:211-249 | the SET list grown by the pushes lists columns in the fixed order, none twice |
| SetLists.ExpectedExact | backend/controllers/travelerController.js:211-249 | an item is in the list exactly when the body defined that field with that value |
| SetLists.ExpectedEmpty | backend/controllers/travelerController.js:251 | the list is empty exactly when no field is defined |
| Accounts.TravelerByEmail | backend/controllers/travelerController.js:91-94 | the lookup finds a row exactly when the email is registered, and the row found has that email |
| Accounts.TravelerById | backend/controllers/travelerController.js:266-269 | the lookup finds the row exactly when the id is in range, and it carries that id |
| Accounts.TravelerTable.constructor | backend/controllers/travelerController.js:51-54 | the table starts empty and well-formed |
| Accounts.TravelerWriteEffect | backend/controllers/travelerController.js:260-263 | one SET item writes its own column and no other |
| Accounts.TravelerWritesKeepIdentity | backend/controllers/travelerController.js:260-263 | no SET list changes id, email, password or the profile image |
| Accounts.TravelerWritesEffect | backend/controllers/travelerController.js:211-263 | writing the built list replaces exactly the defined columns and keeps every other column |
| Accounts.OwnerByEmail | backend/controllers/ownerController.js:82-85 | the lookup finds a row exactly when the email is registered |
| Accounts.OwnerById | backend/controllers/ownerController.js:148-151 | the lookup finds the row exactly when the id is in range |
| Accounts.OwnerTable.constructor | backend/controllers/ownerController.js:6-68 | the table starts empty and well-formed |
| Accounts.OwnerWriteEffect | backend/controllers/ownerController.js:209-212 | one SET item writes its own column and no other |
| Accounts.OwnerWritesKeepIdentity | backend/controllers/ownerController.js:209-212 | no SET list changes an owner's id, email or password |
| Accounts.OwnerWritesEffect | backend/controllers/ownerController.js:180-212 | writing the built list replaces exactly the defined columns and keeps the others |
| TravelerController.Signup | backend/controllers/travelerController.js:6-75 | checks in order: required fields, email format, password of at least 6 characters, registered email; success exactly when all pass; 201 with the new row under the next id; a refusal writes nothing |
| TravelerController.Login | backend/controllers/travelerController.js:78-135 | 400 without email or password; the same 401 text for an unknown email and a wrong password; on success the session gets `travelerId` and 'traveler' and the answer is the row without its password; success exactly when both are given, the email is known and the password matches |
| TravelerController.PatchFields | backend/controllers/travelerController.js:190-200 | the body's nine profile fields in the handler's column order |
| TravelerController.PushContact | backend/controllers/travelerController.js:214-225 | the name, phone and profile picture pushes give the list of those supplied, in order |
| TravelerController.PushPlace | backend/controllers/travelerController.js:226-237 | the city, state and country pushes extend it in order |
| TravelerController.PushPersonal | backend/controllers/travelerController.js:238-249 | the about, languages and gender pushes complete it in order |
| TravelerController.BuildUpdates | backend/controllers/travelerController.js:211-249 | the nine pushes build exactly the SET list of the defined fields in column order |
| TravelerController.WritePatch | backend/controllers/travelerController.js:258-274 | the UPDATE gives the session's row exactly the supplied columns, keeps the rest and its identity, and the row is read back as written |
| TravelerController.WriteRow | backend/controllers/travelerController.js:260-263 | the UPDATE changes only the session's row, by the SET list, and keeps emails unique |
| TravelerController.UpdateProfile | backend/controllers/travelerController.js:187-284 | a non-empty invalid state is refused before any write; a body with no defined field gives "No fields to update"; success exactly otherwise, with exactly the defined fields written in order and all other columns kept |
| TravelerController.EmptyStateIsWritten | backend/controllers/travelerController.js:203-233 | an empty-string state skips validation and is still written |
| OwnerController.Signup | backend/controllers/ownerController.js:6-68 | the same check order as the traveler signup, over the owners table; a refusal writes nothing |
| OwnerController.Login | backend/controllers/ownerController.js:71-123 | 400, then one 401 text for an unknown email and a wrong password; success, exactly when both are given, the email is known and the password matches, sets `ownerId` and 'owner' and strips the password |
| OwnerController.LoginPassesOwnerGuard | backend/controllers/ownerController.js:105-106 | after a successful owner login the owner guard passes and the traveler guard answers as before |
| OwnerController.GetProfile | backend/controllers/ownerController.js:144-172 | 404 "Owner not found" exactly when no row has the session's id; otherwise the selected columns of that row |
| OwnerController.PatchFields | backend/controllers/ownerController.js:178 | name, phone, profilePicture and about, in that order |
| OwnerController.BuildUpdates | backend/controllers/ownerController.js:180-198 | the four pushes build exactly the SET list of the defined fields in order |
| OwnerController.WriteRow | backend/controllers/ownerController.js:209-212 | the UPDATE changes only the session's row, by the SET list |
| OwnerController.UpdateProfile | backend/controllers/ownerController.js:175-232 | refused exactly when none of the four fields is defined, with no write; otherwise exactly the defined columns are written |
| OwnerController.UpdatePhoneThenGet | backend/controllers/ownerController.js:175-232 | updating only the phone and reading the profile back shows the new phone with every other column as before |
| TravelerRoutes.RequireTravelerAuth | backend/routes/travelerRoutes.js:11-19 | the router's guard passes exactly with a truthy `travelerId`, otherwise 401 "Authentication required" |
| TravelerRoutes.Signup | backend/routes/travelerRoutes.js:26-78 | 400 when name, email or password is missing, then 400 for a registered email, and no other check; success signs the new traveler in |
| TravelerRoutes.Login | backend/routes/travelerRoutes.js:85-143 | 400 without email or password; one 401 text for an unknown email and for a wrong password; success, exactly when both are given, the email is known and the password matches, signs the traveler in |
| TravelerRoutes.Logout | backend/routes/travelerRoutes.js:150-163 | behind the guard, the session is destroyed |
| TravelerRoutes.GetProfile | backend/routes/travelerRoutes.js:170-197 | 401 without a login, 404 when no row has the id; success exactly when signed in with an existing row, answering that row's selected columns |
| TravelerRoutes.UpdateThenGetProfile | backend/routes/travelerRoutes.js:170-226 | after the profile statement, reading the profile back gives the six written columns as sent |
| TravelerRoutes.UpdateProfile | backend/routes/travelerRoutes.js:204-226 | behind the guard, all six columns are overwritten, a missing field as NULL; 200 even when no row matches |
| TravelerRoutes.IsImageDataUri | backend/routes/travelerRoutes.js:248 | the upload's data-URI pattern: the text starts with `data:image/`, one of jpeg, jpg, png, gif or webp, and `;base64,` |
| TravelerRoutes.ImageDataUriExamples | backend/routes/travelerRoutes.js:248 | a PNG data URI passes the type pattern; an SVG one and one without `;base64,` do not |
| TravelerRoutes.UploadImage | backend/routes/travelerRoutes.js:233-283 | 401, then 400 for missing data, for a non-image data URI and for more than 2·1024·1024 characters; success exactly otherwise, storing the data unchanged and echoing it |
| TravelerRoutes.DeleteImage | backend/routes/travelerRoutes.js:290-313 | behind the guard, the profile image becomes NULL and nothing else changes |
| TravelerRoutes.CheckAuth | backend/routes/travelerRoutes.js:320-348 | authenticated exactly when the guard passes and the id names a row |
| TravelerRoutes.SignupThenLogin | backend/routes/travelerRoutes.js:26-143 | a signup followed by a login with the same password signs the new traveler in under the new id |
| Bookings.RangesOverlapSymmetric | backend/controllers/propertyController.js:72-76 | sharing a day is symmetric in the two stays |
| Bookings.Cancel | backend/controllers/bookingController.js:37-40 | the row becomes CANCELLED with `cancelled_at` set, every other field unchanged |
| Bookings.CancelShrinksAccepted | backend/controllers/bookingController.js:37-40 | cancelling removes exactly that booking from the ACCEPTED set |
| Bookings.CancelFrame | backend/controllers/bookingController.js:37-40 | every other booking is untouched |
| Bookings.CancelKeepsAcceptedDisjoint | backend/controllers/bookingController.js:37-40 | cancellation keeps the no-overlap invariant of ACCEPTED bookings |
| Bookings.CancelTwiceRefused | backend/controllers/bookingController.js:30-40 | after a cancellation the same request meets "already cancelled" |
| Bookings.BookingStore.constructor | backend/controllers/bookingController.js:7-12 | the store holds the given table |
| Bookings.BookingStore.CancelBookingOwner | backend/controllers/bookingController.js:2-60 | 404, then 403 for another owner's property, then 400 when already cancelled; otherwise the booking becomes CANCELLED and the answer carries the row as re-read |
| Bookings.CancelTwice | backend/controllers/bookingController.js:30-51 | two cancellations of one booking: the first succeeds, the second answers 400 and changes nothing |
| PropertyController.SqlOverlap | backend/controllers/propertyController.js:72-76 | the sub-select's three conflict clauses, one for one: the booking covers the first requested day, or the last, or lies inside the stay |
| PropertyController.SqlOverlapIsInclusiveOverlap | backend/controllers/propertyController.js:72-76 | for well-formed stays the three-clause test equals `b.start <= E && b.end >= S` |
| PropertyController.SqlOverlapSymmetric | backend/controllers/propertyController.js:72-76 | for well-formed stays the test is symmetric |
| PropertyController.SqlOverlapAsymmetricOnReversedStay | backend/controllers/propertyController.js:72-76 | without well-formed stays symmetry fails |
| PropertyController.SqlOverlapSharedBoundary | backend/controllers/propertyController.js:72-76 | a booking ending on the first day or starting on the last day conflicts |
| PropertyController.Search | backend/controllers/propertyController.js:9-104 | reference definition of the search: 400 without a location; success exactly when the location is given and every given date is valid with the end after the start, and then exactly the rows that match the location, the date window and the guests |
| PropertyController.SearchRefusesBadDates | backend/controllers/propertyController.js:21-29 | a malformed date gives 400; equal dates give 400; a success with two dates means end after start |
| PropertyController.SearchWindow | backend/controllers/propertyController.js:64-85 | with both dates a kept property covers the stay and has no conflicting ACCEPTED booking; with one date only that one-sided bound applies |
| PropertyController.SearchGuests | backend/controllers/propertyController.js:88-94 | a numeric `guests` keeps only properties sleeping that many; a non-numeric one filters nothing |
| PropertyController.AcceptedPart | backend/controllers/propertyController.js:69-71 | the ACCEPTED bookings of a table |
| PropertyController.SameAcceptedSameConflicts | backend/controllers/propertyController.js:69-77 | the conflict test sees only ACCEPTED bookings |
| PropertyController.SearchIgnoresNonAccepted | backend/controllers/propertyController.js:69-71 | tables with the same ACCEPTED bookings give the same search answer |
| PropertyController.CancelKeepsSearchResults | backend/controllers/bookingController.js:37-40 | a cancellation never makes a returned property disappear from the search |
| PropertyController.HoldsAllSingle | backend/controllers/propertyController.js:59 | one appended clause holds exactly when its condition does |
| PropertyController.HoldsAllConcat | backend/controllers/propertyController.js:65-91 | appending clauses with `+=` conjoins them |
| PropertyController.WindowClauses | backend/controllers/propertyController.js:64-85 | the date-window clauses hold of a property exactly when it fits the window: with both dates, available from at or before the start and to at or after the end with no accepted booking in conflict; with one date, only that bound; with none, always |
| PropertyController.GuestClauses | backend/controllers/propertyController.js:88-94 | the guest clause holds exactly when no number parses from the query or the property sleeps at least that many |
| PropertyController.SearchProperties | backend/controllers/propertyController.js:9-104 | the handler that builds the query clause by clause answers exactly as the reference search |
| PropertyController.DateRefusal | backend/controllers/propertyController.js:213-221 | no refusal exactly when each given availability date is valid and, when both are given, they are strictly ordered |
| PropertyController.HasRequiredFields | backend/controllers/propertyController.js:191-197 | name, type, city and country are non-empty and all four numbers are given |
| PropertyController.HasPositiveNumbers | backend/controllers/propertyController.js:199-210 | price, bedrooms, bathrooms and max guests are all above zero |
| PropertyController.NewRow | backend/controllers/propertyController.js:223-250 | the inserted row: location defaults to "city, country", state and the dates to NULL, the image to the placeholder, the description to "", amenities to the stringified list or "[]" |
| PropertyController.NewRowWellFormed | backend/controllers/propertyController.js:229-250 | a created row has positive numbers, the defaults ("city, country", the placeholder image, '' and '[]'), and ordered availability |
| PropertyController.RankIdentifiesColumn | backend/controllers/propertyController.js:335-364 | two SET items have the same place in the order exactly when they name the same column |
| PropertyController.Push | backend/controllers/propertyController.js:335-364 | one push keeps the SET list in order and only of supplied fields |
| PropertyController.PushNumbers | backend/controllers/propertyController.js:335-342 | the numeric pushes give the list of supplied numbers in order |
| PropertyController.PushNames | backend/controllers/propertyController.js:345-348 | the name, type, location and city pushes extend it in order |
| PropertyController.PushPlace | backend/controllers/propertyController.js:349-350 | the state and country pushes extend it in order |
| PropertyController.PushMedia | backend/controllers/propertyController.js:351-352 | the image and description pushes extend it in order |
| PropertyController.PushRest | backend/controllers/propertyController.js:355-364 | the amenities and date pushes complete the list; it is empty exactly when nothing is supplied |
| PropertyController.BuildStatement | backend/controllers/propertyController.js:335-368 | the SET list holds only supplied fields, in the fixed column order, is empty exactly when nothing is supplied, and applied to the row gives the row overlaid with the supplied fields |
| PropertyController.PushesGiveOverlay | backend/controllers/propertyController.js:335-371 | the five stages of pushes, applied in turn, give the same row as overlaying every supplied field at once |
| PropertyController.OverlayKeepsIdentity | backend/controllers/propertyController.js:371 | an update never changes the id or the owner; an empty body changes nothing |
| PropertyController.UpdateCanStoreZeroBedrooms | backend/controllers/propertyController.js:340-342 | an update can store 0 bedrooms, which create would refuse |
| PropertyController.Find | backend/controllers/propertyController.js:308 | finds a row exactly when one has the id |
| PropertyController.Replace | backend/controllers/propertyController.js:371 | replaces the row with that id and keeps every other row |
| PropertyController.FilterKeepsNewestFirst | backend/controllers/propertyController.js:96 | filtering keeps the newest-first order |
| PropertyController.ReplaceKeepsNewestFirst | backend/controllers/propertyController.js:371 | replacing a row keeps the newest-first order |
| PropertyController.PropertyTable.constructor | backend/controllers/propertyController.js:229-250 | the table starts empty with next id 1 |
| PropertyController.PropertyTable.GetPropertyById | backend/controllers/propertyController.js:110-159 | 400 for a non-numeric id, 404 for an unknown one; the row with that id exactly when the id is numeric and present |
| PropertyController.PropertyTable.GetOwnerProperties | backend/controllers/propertyController.js:442-486 | 401 without an owner; otherwise exactly the owner's rows, newest first |
| PropertyController.PropertyTable.CreateProperty | backend/controllers/propertyController.js:166-293 | 401, then 400 for a missing field, a non-positive number or a bad date, in that order; 201 exactly when every check passes, with the new well-formed row under the next id inserted first |
| PropertyController.PropertyTable.UpdateProperty | backend/controllers/propertyController.js:300-410 | 401, 404, 403, then date and price checks, then 400 when nothing is supplied, all before any write; 200 exactly when every guard passes, with a SET list of only supplied fields in fixed order, and the row overlaid by exactly those fields |
| PropertyController.PropertyTable.DeleteProperty | backend/controllers/propertyController.js:416-437 | 401, 404, 403 before any write; 200 exactly when the signed-in owner's row exists, and then exactly that row is removed |
| Favorites.WithoutPair | backend/controllers/favoriteController.js:74-77 | the rows other than the pair's, none of them the pair |
| Favorites.FilterKeepsWellKept | backend/controllers/favoriteController.js:74-77 | deleting rows keeps pairs unique and newest first |
| Favorites.Joined | backend/controllers/favoriteController.js:105-128 | the join yields at most one view per favourite |
| Favorites.JoinedMembers | backend/controllers/favoriteController.js:105-128 | every view is one of the traveler's favourites with its existing property's row, and every such favourite has its view |
| Favorites.JoinedBelow | backend/controllers/favoriteController.js:105-128 | joined views are stamped with ids of their favourites |
| Favorites.JoinedNewestFirst | backend/controllers/favoriteController.js:105-128 | joined views come newest first |
| Favorites.FavoriteTable.constructor | backend/controllers/favoriteController.js:43-46 | the table starts empty |
| Favorites.FavoriteTable.AddFavorite | backend/controllers/favoriteController.js:4-66 | 400 without a property id, 404 for an unknown property, 400 for a stored pair, all with no write; otherwise 201 and the pair is stored |
| Favorites.FavoriteTable.RemoveFavorite | backend/controllers/favoriteController.js:69-98 | 404 exactly when the pair is absent, with no change; otherwise exactly that pair is deleted |
| Favorites.FavoriteTable.GetFavorites | backend/controllers/favoriteController.js:101-143 | only the traveler's favourites, each with its stored property row as the INNER JOIN gives, every such favourite present, newest first |
| Favorites.FavoriteTable.CheckFavorite | backend/controllers/favoriteController.js:146-175 | 400 for a non-numeric id, otherwise whether the pair is stored |
| Favorites.NumericIdOfDigits | backend/controllers/favoriteController.js:151-156 | a property id written in decimal passes the check as itself |
| Favorites.AddCheckRemove | backend/controllers/favoriteController.js:4-175 | add, add again (400), remove, remove again (404): the pair ends up absent |
| PropertyDetails.NightlyPrice | frontend/src/features/property/PropertyDetails.js:139 | `price`, falling back to `price_per_night` when `price` is 0 or absent |
| PropertyDetails.CalculateTotal | frontend/src/features/property/PropertyDetails.js:133-144 | null unless both dates are set and the end is after the start; nights is the day difference and positive; total is nights times the nightly price |
| PropertyDetails.TotalNightsMatchBackend | frontend/src/features/property/PropertyDetails.js:135-137 | the page's night count equals the backend's `calculateNights` |
| PropertyDetails.PreCheckMeaning | frontend/src/features/property/PropertyDetails.js:82-85 | for valid dates the pre-check refuses exactly when the end is not after the start; invalid or empty dates pass it |
| PropertyDetails.BookingForm.constructor | frontend/src/features/property/PropertyDetails.js:8-14 | the panel starts at ('', '', 1), not busy |
| PropertyDetails.BookingForm.HandleBooking | frontend/src/features/property/PropertyDetails.js:78-106 | refused dates send nothing; otherwise the form's values are sent, the form resets to ('', '', 1) exactly on success, and the busy flag is cleared |
| PropertyDetails.BookThenResubmit | frontend/src/features/property/PropertyDetails.js:78-106 | after a success the emptied form is sent again unrefused |
| OwnerPropertyForm.Toggle | frontend/src/features/owner/OwnerPropertyForm.js:155-161 | a ticked amenity is removed everywhere, keeping the order of the rest; an unticked one is appended; membership flips and other amenities keep theirs |
| OwnerPropertyForm.ToggleAmenity | frontend/src/features/owner/OwnerPropertyForm.js:156-161 | only the amenities of the form change |
| OwnerPropertyForm.FilterDropsAppended | frontend/src/features/owner/OwnerPropertyForm.js:159 | removing an appended new element gives the list back |
| OwnerPropertyForm.ToggleTwiceRestores | frontend/src/features/owner/OwnerPropertyForm.js:157-161 | toggling an unticked amenity twice restores the list |
| OwnerPropertyForm.ToggleTwiceFromTicked | frontend/src/features/owner/OwnerPropertyForm.js:157-161 | from a ticked amenity two toggles leave the others in order with it moved to the end, so the list differs unless it was already last |
| OwnerPropertyForm.ParseAmenities | frontend/src/features/owner/OwnerPropertyForm.js:79-90 | an array is kept; a text is JSON-parsed, or on failure split on ',' and trimmed; absent gives [] |
| OwnerPropertyForm.FallbackPiecesCoverText | frontend/src/features/owner/OwnerPropertyForm.js:85 | the split pieces join back into the stored text |
| OwnerPropertyForm.PayloadOf | frontend/src/features/owner/OwnerPropertyForm.js:133-136 | the payload carries the amenities as their JSON text and every other field as is |
| OwnerPropertyForm.PayloadAmenitiesReadBack | frontend/src/features/owner/OwnerPropertyForm.js:79-136 | a stored payload text reads back as the list sent, when parse undoes stringify |
| OwnerPropertyForm.SubmitRefusal | frontend/src/features/owner/OwnerPropertyForm.js:121-129 | refused exactly for counts under 1 or a negative price, counts first |
| OwnerPropertyForm.AsInput | frontend/src/features/owner/OwnerPropertyForm.js:133-143 | the posted body carries every field; an untouched price is the empty text, which reaches the backend as 0, any typed price as itself |
| OwnerPropertyForm.UntouchedPriceRefused | frontend/src/features/owner/OwnerPropertyForm.js:52 | a never-typed price passes the form's checks with valid counts, yet create refuses it for non-positive numbers and update for a non-positive price |
| OwnerPropertyForm.FreePropertyPassesFormOnly | frontend/src/features/owner/OwnerPropertyForm.js:126-129 | price 0 passes the form, though the backend create refuses it |
| OwnerPropertyForm.FormPage.constructor | frontend/src/features/owner/OwnerPropertyForm.js:45-64 | the page starts with the initial form |
| OwnerPropertyForm.FormPage.HandleAmenityToggle | frontend/src/features/owner/OwnerPropertyForm.js:155-162 | a checkbox click toggles that amenity |
| OwnerPropertyForm.FormPage.HandleSubmit | frontend/src/features/owner/OwnerPropertyForm.js:117-152 | a refused form sends nothing; an edit PUTs and a new property POSTs the payload; success alerts "Property updated successfully!" or "Property created successfully!" and navigates to the property list, failure alerts the error text |
| OwnerSignup.SignupCheck | frontend/src/features/owner/OwnerSignup.js:19-29 | the first two checks in order: differing passwords win, then a password under six characters |
| OwnerSignup.SignupCheckMeaning | frontend/src/features/owner/OwnerSignup.js:19-35 | a whitespace-only location is refused once the passwords pass; the form passes exactly when the passwords agree, have six characters or more, and the location has a non-whitespace character |
| OwnerSignup.OutcomeAlert | frontend/src/features/owner/OwnerSignup.js:46-55 | the success text, else the server's message, else a fixed text |
| OwnerSignup.SignupPage.constructor | frontend/src/features/owner/OwnerSignup.js:6-13 | the form starts empty, not loading |
| OwnerSignup.SignupPage.HandleSignup | frontend/src/features/owner/OwnerSignup.js:16-59 | a failed check sends nothing; otherwise the body has only name, email, password and location, and only an answer with `success` goes to the owner login |
| OwnerSignup.CheckOrderExamples | frontend/src/features/owner/OwnerSignup.js:19-35 | the first failing check decides; 6 characters pass, 5 do not |
| TravelerBookings.GetStatusColor | frontend/src/features/traveler/TravelerBookings.js:65-76 | accepted, pending and cancelled in any case give success, warning and danger; anything else gives secondary |
| TravelerBookings.LowerIdempotent | frontend/src/features/traveler/TravelerBookings.js:66 | lower-casing twice is lower-casing once |
| TravelerBookings.ColorDependsOnLowerCase | frontend/src/features/traveler/TravelerBookings.js:66 | the colour depends only on the lower-cased status |
| TravelerBookings.AcceptedColor | frontend/src/features/traveler/TravelerBookings.js:67-68 | 'ACCEPTED' gives success |
| TravelerBookings.PendingColor | frontend/src/features/traveler/TravelerBookings.js:69-70 | 'PENDING' gives warning |
| TravelerBookings.CancelledColor | frontend/src/features/traveler/TravelerBookings.js:71-72 | 'CANCELLED' gives danger |
| Slices.Merge | frontend/src/features/owner/OwnerSlice.js:23-26 | payload keys win and every other key is kept |
| Slices.OwnerSlice.constructor | frontend/src/features/owner/OwnerSlice.js:4-7 | the initial state is (null, false) |
| Slices.OwnerSlice.LoginOwner | frontend/src/features/owner/OwnerSlice.js:13-16 | `ownerInfo` is the payload and the owner is logged in |
| Slices.OwnerSlice.LogoutOwner | frontend/src/features/owner/OwnerSlice.js:17-20 | back to the initial state |
| Slices.OwnerSlice.UpdateOwnerProfile | frontend/src/features/owner/OwnerSlice.js:21-28 | merges over a present `ownerInfo`, does nothing without one, never changes `isLoggedIn` |
| Slices.OwnerSession | frontend/src/features/owner/OwnerSlice.js:13-28 | login, edit and logout end in the initial state, and an edit after logout changes nothing |
| Slices.TravelerSlice.constructor | frontend/src/features/traveler/travelerSlice.js:4-7 | the initial state is (null, false) |
| Slices.TravelerSlice.LoginTraveler | frontend/src/features/traveler/travelerSlice.js:13-16 | `travelerInfo` is the payload and the traveler is logged in |
| Slices.TravelerSlice.LogoutTraveler | frontend/src/features/traveler/travelerSlice.js:17-20 | back to the initial state from any state |
| Slices.TravelerSession | frontend/src/features/traveler/travelerSlice.js:13-20 | login then logout gives the initial state, and logging out again keeps it |
| Prompts.PyTake | ai-agent/prompts.py:210 | Python's `s[:n]`: a prefix of the text, of length min(n, len) or, for negative n, len + n |
| Prompts.Lines | ai-agent/prompts.py:202-207 | four lines per result |
| Prompts.LinesShape | ai-agent/prompts.py:202-207 | entry i is its number i + 1 and title (or "N/A"), its URL (or "N/A"), at most 200 characters of content followed by "...", and a blank line |
| Prompts.FormatSearchResults | ai-agent/prompts.py:199-210 | the first ten entries joined with newlines, cut to `max_length`: never longer than it, a prefix of the full join, "" for no results |
| Prompts.Flatten | ai-agent/prompts.py:218-219 | a tag is in the flattened list exactly when some activity carries it |
| Prompts.Distinct | ai-agent/prompts.py:220 | no duplicates, and the same elements |
| Prompts.SummaryTags | ai-agent/prompts.py:218-222 | exactly min(10, number of distinct tags) tags, none twice, each carried by some activity; all of them when there are at most ten |
| Prompts.FormatActivitiesSummary | ai-agent/prompts.py:213-222 | the fixed text for no activities; otherwise the chosen tags joined with ", " |
| Prompts.UntaggedActivitiesGiveEmptySummary | ai-agent/prompts.py:215-222 | activities without tags give "", not the fixed text |
| Agent.CreateFallbackActivities | ai-agent/agent.py:325-339 | min(10, n) activities, one per leading result in order; childFriendly exactly for "family", always wheelchair accessible, the title or "Activity", a description that is a prefix of the content of at most 150 characters |
| Agent.CreateFallbackRestaurants | ai-agent/agent.py:342-354 | min(8, n) restaurants, one per leading result in order, each with the given dietary filters, the title or "Restaurant", a description of at most 150 characters |
| Agent.CreateFallbackDayPlan | ai-agent/agent.py:357-367 | max(nights, 0) plans with days 1 to nights in order |
| Agent.CreateFallbackChecklist | ai-agent/agent.py:370-392 | the ten fixed items, and for "family" exactly three more at the end |
| Agent.EventsOf | ai-agent/agent.py:305-311 | one event per result, in order, the title or "Local Event", at most 200 characters of content |
| Agent.CompilePlan | ai-agent/agent.py:296-317 | at most 20 activities, 15 restaurants and 5 events, each a prefix of what it was given, event descriptions of at most 200 characters |
| Agent.FallbackPlan | ai-agent/agent.py:296-392 | a plan built from fallbacks keeps all fallback activities, built from the `pois` results, and all fallback restaurants, built from the `restaurants` results: the caps never cut them |

## Left out

- SQL and HTTP plumbing: every `db.query` is replaced by an operation on the in-memory table.
  SQL NULL comparisons use the three-valued reading only where a handler compares a column.
  `LIKE` is plain substring search, with no collation or wildcard characters. `ORDER BY
  created_at` becomes the table's newest-first order.
- The `created_at`, `updated_at` and `cancelled_at` timestamps are not read back. `cancelled_at`
  is set to a `now` parameter.
- Every handler's `catch` path and its 500 answer are left out, since the model has no failing
  I/O. So are the 500 paths of the logout callbacks.
- bcrypt is parameters: signup receives the hash, and login receives the compare as a function.
- express-session internals and cookies are left out. A session is a value: logout replaces it
  with the empty session.
- JavaScript `Date` is modelled as `ParseDate`: only `YYYY-MM-DD` texts, read as UTC day
  numbers. The engine's other accepted formats and time zones are left out.
- `Number()` coercion is left out. Prices and counts are integers, so NaN cannot slip past a
  `<= 0` check. DECIMAL prices and floating point are left out.
- OwnerPropertyForm.SubmitRefusal: the form's counts are integers. In the source, bedrooms and
  max guests come from `parseInt` and bathrooms from `parseFloat` of the field's text, and the
  price is kept as the text. A cleared count field holds NaN; `NaN < 1` is false, so it passes
  the check and is posted as JSON `null`. The model cannot express this input, nor a
  fractional bathroom count.
- Text.NumericId: a route id counts as numeric only when it is a non-empty run of decimal
  digits. `isNaN(id)` also lets through texts such as " 5", "1e3", "0x10" and "5.5", which
  then reach the query. The model answers 400 for them, and so do
  PropertyController.PropertyTable.GetPropertyById and Favorites.FavoriteTable.CheckFavorite.
- Favorites.FavoriteTable.AddFavorite, Favorites.FavoriteTable.RemoveFavorite,
  PropertyController.PropertyTable.UpdateProperty,
  PropertyController.PropertyTable.DeleteProperty and Bookings.BookingStore.CancelBookingOwner
  take ids as numbers. In the source they arrive as route or body text, and the model takes
  the number MySQL would compare them as. Two cases are therefore not expressed:
  - the body text "0", which is truthy, so `!propertyId` lets it reach the lookup and its 404;
  - a text such as "5abc", which MySQL casts to 5.
  A body id sent as the number 0 is modelled: it is falsy and gets 400.
- PropertyController.PropertyTable.GetPropertyById returns the stored row. The source's
  `LEFT JOIN owners` also adds the owner's name as `ownerName`; the model leaves that column out.
- PropertyDetails.BookingForm.HandleBooking: `guests` is an integer. After an edit,
  `setGuests(e.target.value)` stores the field's text, so the source posts `guests` as text.
  The model posts the number that text stands for.
- Accounts.TravelerByEmail and Accounts.OwnerByEmail compare emails by exact equality. MySQL's
  `=` follows the column's collation, which may ignore case and trailing spaces.
- TravelerController.UpdateProfile: a body field is either undefined (None) or a value. A JSON
  `null` passes `!== undefined` in the source and is written as NULL, so `{phone: null}`
  answers 200 and clears the column. The model cannot express this input, so its contract
  says nothing about clearing a column through `null`.
- OwnerController.UpdateProfile: the same gap for the owner's four fields: a `null` field
  is written as NULL in the source and cannot be expressed here.
- PropertyController.PropertyTable.UpdateProperty: the same gap for the property fields. A
  `null` price becomes `Number(null)`, which is 0, and is refused by the `price <= 0` check. A
  `null` bedroom, bathroom or guest count is written as 0, and a `null` text as NULL. None of
  these inputs can be expressed here.
- `JSON.stringify` and `JSON.parse` are function parameters. `JSON.parse` is restricted to texts
  of string arrays, and any other parsed value is treated as a failed parse.
- Strings are sequences of code points. JavaScript lengths count UTF-16 units, so lengths match
  only for text in the Basic Multilingual Plane.
- `toLowerCase` is modelled on ASCII letters only. `trim` and `\s` use the JavaScript whitespace
  set.
- Booking creation, acceptance, the traveler's cancellation and the booking lists are left out.
  The visible `bookingController.js` exports them but holds only `cancelBookingOwner`, and that
  file never requires `db`; the model assumes the database is there.
- Routing is left out:
  - `server.js`, and the router files other than `travelerRoutes.js`, are not part of this model.
  - The favourites, property and booking handlers are modelled on their own, without the
    routers that would mount them.
  - The traveler router answers errors under an `error` key, the controllers under `message`.
    The model keeps only the status and the text.
- travelerController's `logout`, `getProfile` and `uploadProfileImage` (a multer file upload)
  are left out; the router's versions of these are modelled.
- Of the property form's `fetchProperty`, only the amenities parsing is modelled. The
  per-field fallbacks it applies to the other loaded fields are left out.
- The agent's LLM and web-search calls are left out: `extract_*`, `generate_*`, tavily_search.py,
  main.py and the Pydantic models. The model covers only the deterministic builders.
  `ai-agent/agent.py:33` holds an unterminated string literal, so the module does not parse as
  written.
- Prompts.FormatActivitiesSummary: `list(set(...))` gives the tags in an unspecified order. The
  model takes them in order of first occurrence, so its contract fixes an order that the source
  does not.
- UI rendering, navigation other than the route a handler sets, `alert` beyond its text, and the
  Redux store wiring are left out.

## Notes on the code as written

- The code answers 400, not 409, for an already-cancelled booking
  (backend/controllers/bookingController.js:30-35). The model follows the code.
- `updateProperty` does not re-check bedrooms, bathrooms or max guests, so an update can store 0
  (PropertyController.UpdateCanStoreZeroBedrooms). `createProperty` refuses 0.
- The property form lets a price of 0 through, and the backend create then refuses it
  (OwnerPropertyForm.FreePropertyPassesFormOnly).
- The booking form's pre-check lets empty or invalid dates through to the server
  (PropertyDetails.PreCheckMeaning).
- The traveler router's `PUT /profile` writes all six columns, NULL for a field left out, and
  answers 200 even when no row matches (TravelerRoutes.UpdateProfile).

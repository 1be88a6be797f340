# Property booking front end: a Dafny model of its logic

This project models the behaviour of a React/Redux front end for a
property-booking site. Hosts list properties and renters book stays. The
model covers the parts of the front end that decide things:

- **The booking dialog** (`BookingModal`).
  - The two-month calendar grid.
  - The check-in/check-out selector, a three-phase state machine.
  - Which days are highlighted or disabled.
  - The guest counter, and the nights and price summary.
  - The checks that run before a booking is submitted.
- **The three Redux slices** (`PropertySlice`, `BookingsSlice`, `AuthSlice`).
  - Each slice is a class with one field per state key.
  - There is one method per case reducer, plus a `Dispatch` method that routes an action to its case.
  - A pure `Reduce` function gives the next state for every action. `Dispatch` is proved to produce exactly that state.
  - A thunk resolves with `response?.data?.data`, which is undefined when the response has no `data` field. The single-record and report payloads, and the user, user-property and user-booking tables of the `login` slice, are therefore optional. An update case that reads `id` off an undefined payload throws. So does a user deletion that filters an undefined user table. The store then keeps its state.
  - Client methods drive a store through any sequence of actions and show what stays invariant.
- **The route guard** in front of the host pages (`ProtectedRoute`).
- **The login and signup validators** (`Validation`), including the email pattern.
- **The "create property" form** (`CreatePropertyModal`).
  - Its Yup schema, as a predicate.
  - Its initial values.
  - The picked images and their previews.
  - The multipart body it builds.
- **The property service's flattening** (`PropertyService`): how a property object becomes a multipart body.
- **The listing card's carousel and preview** (`PropertyCard`).
- **The listing page** (`PropertyDetailsPage`).
  - Its render precedence.
  - Its photo gallery.
  - Its amenity icons and labels.

Shared modules:

- `Common`: Option/Result, JavaScript truthiness, decimal rendering of numbers.
- `FormData`: a multipart body as an ordered list of entries; `getAll` reads it back.
- `Records`: replace-by-id and filter-by-id over a table of server records.
- `Gregorian`: the calendar arithmetic that `Date` supplies.
  - Dates are day numbers in the proleptic Gregorian calendar. 0001-01-01 is day 1.
  - Months are 1..12.
  - "Today" is always a parameter.

Things the model makes visible about the program, each proved:

- A successful password login sets `isAuthenticated` even when the response carries no token.
- A Google sign-in sets `isAuthenticated` but leaves the slice's `token` as it was. The thunk stores the new token in browser storage only, so the slice does not see it until the page reloads. Until then the guard sends even a host home (`ProtectedRoute.GoogleSignInWithoutStoredToken`).
- Nothing in the property slice ever writes `userProperties`, and nothing in the bookings slice ever fills `filteredBookings`.
- On the listing page, the next arrow compares the index only with the last position. From an index past the photos it keeps counting up, where the card's arrow returns to the first photo (`PropertyDetailsPage.GalleryNextOffRange`).

## Model

| member | source | states |
|---|---|---|
| `BookingModal.GenerateCalendar` | src/components/BookingModal.jsx:35-72 | the nested loops build exactly the two-month calendar `Calendar(today)`: per month, padding for the weekday of the 1st, then every date of the month |
| `BookingModal.MonthGridShape` | src/components/BookingModal.jsx:42-60 | a month's grid is 0..6 padding slots (the weekday of the 1st), then dates 1..daysInMonth as consecutive day numbers |
| `BookingModal.DatesInWeekdayColumns` | src/components/BookingModal.jsx:48-56 | every date lands in the grid column of its own weekday (0 = Sunday) |
| `BookingModal.SameColumn` | src/components/BookingModal.jsx:48-59 | moving d days forward from a date moves d columns in the seven-column grid |
| `BookingModal.CalendarMonths` | src/components/BookingModal.jsx:39-40 | the calendar has exactly two months, today's first, and the second begins the day after the first ends |
| `BookingModal.TodayIsShown` | src/components/BookingModal.jsx:39-60 | today's date is a cell of the first month |
| `BookingModal.LeapFebruary2024` | src/components/BookingModal.jsx:42-60 | February 2024 has four padding slots and 29 dates |
| `Gregorian.DaysInMonth` | src/components/BookingModal.jsx:42-46 | month lengths are 28..31, and February has 29 days exactly in leap years |
| `Gregorian.Weekday` | src/components/BookingModal.jsx:49-53 | the weekday of a day number is in 0..6 |
| `Gregorian.AddMonths` | src/components/BookingModal.jsx:40 | a month offset carries into the year and keeps the total month count |
| `Gregorian.NextMonth` | src/components/BookingModal.jsx:40 | the month after December is January of the next year; otherwise it is the next month of the same year |
| `Gregorian.YearLength` | src/components/BookingModal.jsx:42-46 | a year adds 365 days, or 366 in a leap year, to the day count |
| `Gregorian.MonthsAreContiguous` | src/components/BookingModal.jsx:39-60 | the 1st of the next month is the day after the last day of this month |
| `BookingModal.IsDateSelected` | src/components/BookingModal.jsx:128-133 | false without a date or a check-in; equality with check-in when there is no check-out; otherwise checkIn <= d <= checkOut, in both directions |
| `BookingModal.Select` | src/components/BookingModal.jsx:102-126 | a missing date changes nothing; a real click always leaves a check-in and an ordered selection that highlights the clicked day; a check-out is set only by a later click after the unchanged check-in |
| `BookingModal.RestartAfterRange` | src/components/BookingModal.jsx:105-112 | with both dates set, a click starts over at that day with no check-out |
| `BookingModal.SecondClick` | src/components/BookingModal.jsx:113-124 | with check-in only, a strictly later day becomes the check-out; an earlier or equal day becomes the new check-in |
| `BookingModal.IsDateDisabled` | src/components/BookingModal.jsx:135-138 | a cell is disabled exactly when it is padding or before today |
| `BookingModal.ClickDay` | src/components/BookingModal.jsx:102-138 | a disabled cell does not react; any other cell is a selection click |
| `BookingModal.ClickAll` | src/components/BookingModal.jsx:102-138 | over any series of clicks on the grid, the selection stays ordered (check-out after check-in) and never holds a day before today |
| `BookingModal.TotalNights` | src/components/BookingModal.jsx:84-88 | 0 unless both dates are set; for a selection made by clicks it is checkOut − checkIn, at least 1 |
| `BookingModal.TotalPrice` | src/components/BookingModal.jsx:90-93 | 0 when the price is missing or there are no nights; otherwise the price times the nights, at least one night's price |
| `BookingModal.ThreeNightsExample` | src/components/BookingModal.jsx:84-93 | three nights at 100 cost 300 |
| `BookingModal.AdjustGuests` | src/components/BookingModal.jsx:95-100 | the change is applied exactly when the result stays in 1..maxGuests; otherwise the count is unchanged; a count in range stays in range |
| `BookingModal.GuestCounterBounds` | src/components/BookingModal.jsx:95-100 | the counter stops at maxGuests and at 1 |
| `BookingModal.ErrorMessage` | src/components/BookingModal.jsx:142-152 | every failed check has a non-empty message |
| `BookingModal.ValidateBooking` | src/components/BookingModal.jsx:140-167 | checks run in order (missing dates, then missing property id, then too many guests), each an if-and-only-if; success exactly when all pass, with a PENDING draft carrying those nights, guests and price |
| `BookingModal.DraftFromOrderedSelection` | src/components/BookingModal.jsx:160-167 | a draft from a selection made in the dialog checks out after it checks in, books checkOut − checkIn >= 1 nights, and costs the nightly price per night |
| `BookingModal.BookingSession.constructor` | src/components/BookingModal.jsx:16-22 | no dates, one guest, no error |
| `BookingModal.BookingSession.HandleDateSelect` | src/components/BookingModal.jsx:102-126 | the selection becomes `Select(old, date)`; the ordering invariant and guest count are kept |
| `BookingModal.BookingSession.HandleGuestCountChange` | src/components/BookingModal.jsx:95-100 | the count becomes `AdjustGuests(old, change, maxGuests)` and stays >= 1 |
| `BookingModal.BookingSession.HandleBookingSubmit` | src/components/BookingModal.jsx:140-167 | the outcome is `ValidateBooking` of the session; a failure shows its message; a success clears the error; dates and guests are unchanged |
| `Records.ReplaceById` | src/redux/property/propertySlice.jsx:229-231 | keeps the length; positions whose id matches hold the update; every other position is unchanged |
| `Records.RemoveById` | src/redux/property/propertySlice.jsx:267 | a record is kept exactly when it was there and does not carry the id |
| `Records.RemoveByIdAppend` | src/redux/property/propertySlice.jsx:267 | filtering distributes over concatenation, so the kept records keep their order |
| `Records.RemoveByIdLength` | src/redux/bookings/bookingsSlice.jsx:191 | filtering drops exactly as many records as carry the id |
| `Records.RemoveByIdAbsent` | src/redux/bookings/bookingsSlice.jsx:191 | deleting an id nobody carries leaves the table as it was |
| `Records.ReplaceByIdIdempotent` | src/redux/bookings/bookingsSlice.jsx:153-155 | applying the same update twice is applying it once |
| `Records.ReplaceByIdContains` | src/redux/bookings/bookingsSlice.jsx:153-155 | after an update the new record is in the table exactly when it already was or some record carried its id |
| `PropertySlice.PropertyStore.constructor` | src/redux/property/propertySlice.jsx:4-12 | empty lists, no current property or availability, not loading, no error |
| `PropertySlice.PropertyStore.ClearPropertyErrors` | src/redux/property/propertySlice.jsx:142-144 | only `error` changes, to null |
| `PropertySlice.PropertyStore.ClearCurrentProperty` | src/redux/property/propertySlice.jsx:145-147 | only `currentProperty` changes, to null |
| `PropertySlice.PropertyStore.ClearFilteredProperties` | src/redux/property/propertySlice.jsx:148-150 | only `filteredProperties` changes, to empty |
| `PropertySlice.PropertyStore.Pending` | src/redux/property/propertySlice.jsx:155-157 | only `loading` changes, to true |
| `PropertySlice.PropertyStore.Rejected` | src/redux/property/propertySlice.jsx:163-166 | only `loading` (false) and `error` (the payload) change |
| `PropertySlice.PropertyStore.CreateFulfilled` | src/redux/property/propertySlice.jsx:158-162 | the payload is appended; loading and error cleared; nothing else changes |
| `PropertySlice.PropertyStore.GetAllFulfilled` | src/redux/property/propertySlice.jsx:172-176 | `properties` becomes the payload; loading and error cleared |
| `PropertySlice.PropertyStore.GetByIdFulfilled` | src/redux/property/propertySlice.jsx:186-190 | `currentProperty` becomes the payload, none when the thunk resolved with undefined; loading and error cleared |
| `PropertySlice.PropertyStore.FilterFulfilled` | src/redux/property/propertySlice.jsx:200-218 | `filteredProperties` becomes the payload; loading and error cleared |
| `PropertySlice.PropertyStore.UpdateFulfilled` | src/redux/property/propertySlice.jsx:228-256 | `properties` replaced by id; `currentProperty` replaced only on an id match; loading and error cleared. With an undefined payload it throws exactly when a property is listed or selected, and the state is kept; otherwise only the flags are cleared |
| `PropertySlice.PropertyStore.DeleteFulfilled` | src/redux/property/propertySlice.jsx:266-273 | `properties` filtered by id; `currentProperty` cleared only on an id match; loading and error cleared |
| `PropertySlice.PropertyStore.AvailabilityFulfilled` | src/redux/property/propertySlice.jsx:283-287 | `availability` becomes the payload, none when undefined; loading and error cleared |
| `PropertySlice.Reduce` | src/redux/property/propertySlice.jsx:141-291 | it throws exactly on an update with an undefined payload while a property is listed or selected. Every fulfilled case clears loading and error, and the three plain reducers leave loading alone. `filteredProperties` changes only by the two filter cases and the clear reducer; `availability` only by its case; `properties` only by create, get-all, the updates and delete; `currentProperty` only by clear, get-by-id, the updates and delete; `userProperties` never |
| `PropertySlice.CreateThenDeleteRestores` | src/redux/property/propertySlice.jsx:158-162 | creating a property with a new id and then deleting that id gives back the table as it was |
| `PropertySlice.UpdateIdempotent` | src/redux/property/propertySlice.jsx:228-237 | delivering the same defined update twice leaves the slice as delivering it once |
| `PropertySlice.DeleteKeepsOthers` | src/redux/property/propertySlice.jsx:266-273 | delete filters the table in order, leaving records with other ids where they were |
| `PropertySlice.PropertyStore.Dispatch` | src/redux/property/propertySlice.jsx:138-293 | the new state is `Reduce` of the old state and the action; when `Reduce` reports a throw, `threw` is set and the store keeps its state |
| `PropertySlice.UserPropertiesStayEmpty` | src/redux/property/propertySlice.jsx:8 | over any sequence of actions, `userProperties` stays empty |
| `BookingsSlice.BookingStore.constructor` | src/redux/bookings/bookingsSlice.jsx:4-10 | empty lists, no current booking, not loading, no error |
| `BookingsSlice.BookingStore.ClearBookingErrors` | src/redux/bookings/bookingsSlice.jsx:94-96 | only `error` changes, to null |
| `BookingsSlice.BookingStore.ClearCurrentBooking` | src/redux/bookings/bookingsSlice.jsx:97-99 | only `currentBooking` changes, to null |
| `BookingsSlice.BookingStore.ClearFilteredBookings` | src/redux/bookings/bookingsSlice.jsx:100-102 | only `filteredBookings` changes, to empty |
| `BookingsSlice.BookingStore.Pending` | src/redux/bookings/bookingsSlice.jsx:107-109 | only `loading` changes, to true |
| `BookingsSlice.BookingStore.Rejected` | src/redux/bookings/bookingsSlice.jsx:115-118 | only `loading` (false) and `error` (the payload) change |
| `BookingsSlice.BookingStore.CreateFulfilled` | src/redux/bookings/bookingsSlice.jsx:110-114 | the payload is appended; loading and error cleared; nothing else changes |
| `BookingsSlice.BookingStore.GetAllFulfilled` | src/redux/bookings/bookingsSlice.jsx:124-128 | `bookings` becomes the payload; loading and error cleared |
| `BookingsSlice.BookingStore.GetByIdFulfilled` | src/redux/bookings/bookingsSlice.jsx:138-142 | `currentBooking` becomes the payload, none when the thunk resolved with undefined; loading and error cleared |
| `BookingsSlice.BookingStore.UpdateFulfilled` | src/redux/bookings/bookingsSlice.jsx:152-180 | `bookings` replaced by id; `currentBooking` replaced only on an id match; loading and error cleared. With an undefined payload it throws exactly when a booking is listed or selected, and the state is kept; otherwise only the flags are cleared |
| `BookingsSlice.BookingStore.DeleteFulfilled` | src/redux/bookings/bookingsSlice.jsx:190-197 | `bookings` filtered by id; `currentBooking` cleared only on an id match; loading and error cleared |
| `BookingsSlice.Reduce` | src/redux/bookings/bookingsSlice.jsx:93-201 | it throws exactly on an update with an undefined payload while a booking is listed or selected. Every fulfilled case clears loading and error. `filteredBookings` changes only by the clear reducer, and then to empty; `bookings` only by create, get-all, the updates and delete; `currentBooking` only by clear, get-by-id, the updates and delete |
| `BookingsSlice.CreateThenDeleteRestores` | src/redux/bookings/bookingsSlice.jsx:110-114 | creating a booking with a new id and then deleting that id gives back the table as it was |
| `BookingsSlice.UpdateIdempotent` | src/redux/bookings/bookingsSlice.jsx:152-161 | delivering the same defined update twice leaves the slice as delivering it once |
| `BookingsSlice.BookingStore.Dispatch` | src/redux/bookings/bookingsSlice.jsx:90-203 | the new state is `Reduce` of the old state and the action; when `Reduce` reports a throw, `threw` is set and the store keeps its state; `filteredBookings` stays empty |
| `BookingsSlice.FilteredBookingsStayEmpty` | src/redux/bookings/bookingsSlice.jsx:7 | over any sequence of actions, `filteredBookings` stays empty |
| `AuthSlice.InitialState` | src/redux/auth/authSlice.jsx:4-13 | `isAuthenticated` holds exactly when a non-empty token is stored; the token is the stored one; no user, no error, empty (defined) tables |
| `AuthSlice.GetUserRole` | src/redux/auth/authSlice.jsx:220-229 | null without a token or when decoding fails; when the token decodes, exactly the role claim it carries |
| `AuthSlice.Reduce` | src/redux/auth/authSlice.jsx:150-211 | it throws exactly on a user deletion while the user table is undefined. An action without a case changes nothing. `loading` is true after exactly the two pending actions. The token changes only on login or logout. `isAuthenticated` changes only on login fulfilled/rejected, logout or Google fulfilled. `error`, `userData`, `users`, `userProperties` and `userBookings` change only on their own cases, and delete keeps exactly the users with other ids |
| `AuthSlice.DeleteAfterUndefinedUsersThrows` | src/redux/auth/authSlice.jsx:170-184 | a user list that resolved with undefined leaves the table undefined, and the next deletion throws |
| `AuthSlice.AuthStore.constructor` | src/redux/auth/authSlice.jsx:4-13 | the store starts in `InitialState(storedToken)` |
| `AuthSlice.AuthStore.Pending` | src/redux/auth/authSlice.jsx:152-154 | only `loading` changes, to true |
| `AuthSlice.AuthStore.LoginFulfilled` | src/redux/auth/authSlice.jsx:155-160 | token from the payload, authenticated, no error, not loading; nothing else changes |
| `AuthSlice.AuthStore.LoginRejected` | src/redux/auth/authSlice.jsx:161-165 | error from the payload, not authenticated, not loading; nothing else changes |
| `AuthSlice.AuthStore.UserDataFulfilled` | src/redux/auth/authSlice.jsx:166-177 | `userData` becomes the payload, not loading; nothing else changes |
| `AuthSlice.AuthStore.GetAllUsersFulfilled` | src/redux/auth/authSlice.jsx:170-173 | `users` becomes the payload, undefined when the thunk resolved with undefined; not loading |
| `AuthSlice.AuthStore.UpdateRoleFulfilled` | src/redux/auth/authSlice.jsx:178-180 | only `loading` changes, to false |
| `AuthSlice.AuthStore.DeleteUserFulfilled` | src/redux/auth/authSlice.jsx:181-184 | `users` filtered by id, not loading; nothing else changes. On an undefined user table it throws, and the state is kept |
| `AuthSlice.AuthStore.UserPropertiesFulfilled` | src/redux/auth/authSlice.jsx:185-188 | `userProperties` becomes the payload, undefined when the thunk resolved with undefined; not loading |
| `AuthSlice.AuthStore.UserBookingsFulfilled` | src/redux/auth/authSlice.jsx:189-192 | `userBookings` becomes the payload, undefined when the thunk resolved with undefined; not loading |
| `AuthSlice.AuthStore.LogoutFulfilled` | src/redux/auth/authSlice.jsx:193-197 | no token, not authenticated, not loading; nothing else changes |
| `AuthSlice.AuthStore.GoogleFulfilled` | src/redux/auth/authSlice.jsx:202-206 | `userData` from the payload, authenticated, not loading; the token is unchanged |
| `AuthSlice.AuthStore.GoogleRejected` | src/redux/auth/authSlice.jsx:207-210 | error from the payload, not loading; `isAuthenticated` unchanged |
| `AuthSlice.AuthStore.Dispatch` | src/redux/auth/authSlice.jsx:146-212 | the new state is `Reduce` of the old state and the action; when `Reduce` reports a throw, `threw` is set and the store keeps its state |
| `ProtectedRoute.Guard` | src/components/ProtectedRoute.jsx:6-19 | redirect to /login exactly when not authenticated (whatever the role); redirect to / exactly when authenticated without the HOST role; the children exactly when authenticated as HOST |
| `ProtectedRoute.GuardedPageNeedsHostToken` | src/components/ProtectedRoute.jsx:10-18 | the guarded page shows exactly when the flag is set and the slice's token decodes to the HOST role |
| `ProtectedRoute.GoogleSignInWithoutStoredToken` | src/redux/auth/authSlice.jsx:199-206 | after a Google sign-in on a store started without a stored token, the guard sends the user home |
| `ProtectedRoute.LogoutLocksGuardedPages` | src/components/ProtectedRoute.jsx:10-12 | after a login the guard does not send the user to /login; after the logout that follows it does |
| `Validation.IndexOf` | src/utils/validation.jsx:5 | −1 exactly when the character is absent; otherwise its first position |
| `Validation.LastIndexOf` | src/utils/validation.jsx:5 | −1 exactly when the character is absent; otherwise its last position |
| `Validation.EmailFormatOkIffPattern` | src/utils/validation.jsx:5 | the direct test (first '@', last '.') accepts exactly the strings of the email pattern's language |
| `Validation.EmailErrors` | src/utils/validation.jsx:3-7 | an empty email gives "Email Required"; a non-empty one outside the pattern gives "Invalid email address"; otherwise no entry |
| `Validation.RequiredError` | src/utils/validation.jsx:9-11 | an entry with the message exactly when the value is missing or empty |
| `Validation.ValidateLogin` | src/utils/validation.jsx:1-14 | per key, the entry and its message, each an if-and-only-if; the map is empty exactly when the email matches and a password is given |
| `Validation.LogicalNot` | src/utils/validation.jsx:31 | `!v` is a boolean: true exactly when v is falsy |
| `Validation.StrictEquals` | src/utils/validation.jsx:31 | a boolean never strictly equals a string |
| `Validation.RoleMissingAsWritten` | src/utils/validation.jsx:31 | the role test as written flags exactly a missing or empty role |
| `Validation.RoleMissing` | src/utils/validation.jsx:31-33 | the intended role test flags a missing, empty or placeholder role |
| `Validation.PlaceholderRolePasses` | src/pages/signup.jsx:110 | the placeholder option passes the test as written and fails the intended one |
| `Validation.RoleMissingAcceptsRealRoles` | src/pages/signup.jsx:110-112 | of the options the selector offers, the intended test accepts exactly HOST and RENTER |
| `Validation.SignupErrors` | src/utils/validation.jsx:16-35 | only the four form keys appear; "role" appears exactly when the role test fails |
| `Validation.ValidateAuthAsWritten` | src/utils/validation.jsx:16-35 | as written, the role entry appears exactly for an empty role, and the map is empty exactly when every field is present and the email matches |
| `Validation.ValidateAuth` | src/utils/validation.jsx:16-35 | per key, the entry and its message, each an if-and-only-if, with the intended role test; empty exactly when every check passes |
| `Validation.AsWrittenDiffersOnlyOnPlaceholder` | src/utils/validation.jsx:31-33 | the two signup validators agree on every role but the placeholder, where only the intended one reports it |
| `Validation.SignupChecksLikeLogin` | src/utils/validation.jsx:1-35 | on email and password the signup validator reports exactly what the login validator does |
| `CreatePropertyModal.ValidFormMeans` | src/components/CreatePropertyModal.jsx:11-36 | a form is valid exactly when: title >= 3 characters; description >= 10; positive price; non-empty location; positive whole guests, bathrooms and bedrooms; at least one amenity and one house rule |
| `CreatePropertyModal.InitialValuesOnlyListsPass` | src/components/CreatePropertyModal.jsx:38-48 | the initial lists pass their rules, the seven blank fields fail theirs, and the blank form is invalid |
| `CreatePropertyModal.FilterOutIndex` | src/components/CreatePropertyModal.jsx:63-66 | filtering out a position removes exactly that element and keeps the order of the rest; an index off the list changes nothing |
| `CreatePropertyModal.ImageSelection.constructor` | src/components/CreatePropertyModal.jsx:7-8 | no files, no previews |
| `CreatePropertyModal.ImageSelection.HandleImageChange` | src/components/CreatePropertyModal.jsx:50-53 | the picked files go after the earlier ones; previews are unchanged until loaded |
| `CreatePropertyModal.ImageSelection.PreviewLoaded` | src/components/CreatePropertyModal.jsx:56-58 | one loaded preview is appended |
| `CreatePropertyModal.ImageSelection.RemoveImage` | src/components/CreatePropertyModal.jsx:63-66 | the same position is filtered out of both lists |
| `CreatePropertyModal.ImageSelection.HandleSubmit` | src/components/CreatePropertyModal.jsx:68-114 | submits the body built from the values and files; clears files and previews only when the submission resolves |
| `CreatePropertyModal.RemoveImageKeepsPairs` | src/components/CreatePropertyModal.jsx:63-66 | removing a position from equally long file and preview lists keeps them equally long, and both lists shift the same way: the items after the removed position move one place forward and the ones before it stay |
| `FormData.AppendedScalar` | src/components/CreatePropertyModal.jsx:76-80 | `formData.append` stores a field's string form: a text as it is, a whole number below 1e21 as decimal digits (with a leading '-' when negative) that read back as the number |
| `CreatePropertyModal.ScalarEntries` | src/components/CreatePropertyModal.jsx:74-80 | the seven scalar fields in their fixed order, the numeric ones in the string form `formData.append` stores |
| `CreatePropertyModal.SubmissionEntries` | src/components/CreatePropertyModal.jsx:71-94 | the body has 7 + amenities + house rules + files entries |
| `CreatePropertyModal.BuildSubmission` | src/components/CreatePropertyModal.jsx:71-94 | the appends build exactly `SubmissionEntries(v, files)` |
| `CreatePropertyModal.AppendIndexed` | src/components/CreatePropertyModal.jsx:83-89 | the loop appends one `name[i]` entry per item, in order |
| `CreatePropertyModal.IndexedKeyInjective` | src/components/CreatePropertyModal.jsx:84 | distinct positions of one list get distinct keys |
| `CreatePropertyModal.IndexedKeyShape` | src/components/CreatePropertyModal.jsx:84-88 | an indexed key starts like its list's name and ends in ']' |
| `CreatePropertyModal.IndexedReadBack` | src/components/CreatePropertyModal.jsx:83-89 | item i reads back under `name[i]` as itself |
| `CreatePropertyModal.AmenityReadBack` | src/components/CreatePropertyModal.jsx:83-85 | amenity i reads back from the submitted body under `amenities[i]` |
| `CreatePropertyModal.HouseRuleReadBack` | src/components/CreatePropertyModal.jsx:87-89 | house rule i reads back under `houseRules[i]` |
| `CreatePropertyModal.ImagesReadBack` | src/components/CreatePropertyModal.jsx:92-94 | `images` reads back as every picked file, in order |
| `CreatePropertyModal.ScalarReadBack` | src/components/CreatePropertyModal.jsx:74-80 | each of the seven fields reads back under its key as the one value appended for it: the form's text, or the stored form of its number |
| `CreatePropertyModal.CountsSentAsDigits` | src/components/CreatePropertyModal.jsx:78-80 | on a form the schema accepts, the guest, bathroom and bedroom counts read back as their decimal digits |
| `Common.Show` | src/components/CreatePropertyModal.jsx:84 | an index renders as a non-empty string of digits with no leading zero |
| `Common.ParseShow` | src/components/CreatePropertyModal.jsx:84 | the rendering of an index parses back to the index |
| `Common.ShowInjective` | src/components/CreatePropertyModal.jsx:84 | distinct indices render differently |
| `PropertyService.FilesText` | src/services/property.service.jsx:17 | an array of files converts to the empty string exactly when it is empty |
| `PropertyService.FlattenEntries` | src/services/property.service.jsx:10-19 | the key loop builds exactly `Flatten(data)`, or throws where it does |
| `PropertyService.FlattenFailureSticks` | src/services/property.service.jsx:10-19 | once a key has thrown, no later key recovers the body |
| `PropertyService.CreateProperty` | src/services/property.service.jsx:5-22 | a POST to /properties with the flattened body, exactly when flattening succeeds |
| `PropertyService.UpdateProperty` | src/services/property.service.jsx:47-64 | a PUT to /properties/{id} with the same flattening |
| `PropertyService.UpdatePropertyPartial` | src/services/property.service.jsx:67-84 | a PATCH to /properties/{id} with the same flattening |
| `PropertyService.KeyEntriesCarryKey` | src/services/property.service.jsx:11-18 | every entry a key contributes carries that key |
| `PropertyService.FlattenLast` | src/services/property.service.jsx:10-19 | a body is the body of all keys but the last, then the last key's entries |
| `PropertyService.FlattenFails` | src/services/property.service.jsx:11-13 | building throws exactly when some `images` key holds something other than an array |
| `PropertyService.FlattenCount` | src/services/property.service.jsx:10-19 | the entry count is keys − `images` keys + images |
| `PropertyService.KeyImagesReadBack` | src/services/property.service.jsx:11-18 | one key's entries read back under `images` as that key's files |
| `PropertyService.FlattenImagesReadBack` | src/services/property.service.jsx:11-15 | `images` reads back as every image, in array order |
| `PropertyService.FlattenFieldReadBack` | src/services/property.service.jsx:16-18 | a key other than `images` reads back as the one value appended for it: a text as it is, a whole number as its digits, an array of files as their joined `[object File]` text |
| `PropertyService.FlattenKeyAbsent` | src/services/property.service.jsx:10-19 | a key the object lacks reads back as nothing |
| `PropertyCard.NextImageIndex` | src/components/PropertyCard.jsx:11-19 | on a photo, the next index is (i + 1) mod count; it is below count and, from −1 up, not negative |
| `PropertyCard.PrevImageIndex` | src/components/PropertyCard.jsx:21-29 | on a photo, the previous index is (i − 1) mod count; with no photos it is −1 |
| `PropertyCard.NextPrevRoundTrip` | src/components/PropertyCard.jsx:11-29 | next then previous, and previous then next, return to the same photo |
| `PropertyCard.NextWalks` | src/components/PropertyCard.jsx:14-18 | up to count presses of next walk forward and wrap once |
| `PropertyCard.NextCycles` | src/components/PropertyCard.jsx:14-18 | count presses of next return to the start, and no fewer do |
| `PropertyCard.DisplayedImage` | src/components/PropertyCard.jsx:9-51 | the card shows the photo at the index when there is one, and the stock photo otherwise |
| `PropertyCard.DescriptionPreview` | src/components/PropertyCard.jsx:123 | the preview is a prefix of at most 40 characters: the whole description when it is short, exactly 40 otherwise |
| `PropertyCard.Card.constructor` | src/components/PropertyCard.jsx:6 | the carousel starts at the first photo |
| `PropertyCard.Card.NextImage` | src/components/PropertyCard.jsx:11-19 | the index becomes `NextImageIndex` and stays on a photo |
| `PropertyCard.Card.PrevImage` | src/components/PropertyCard.jsx:21-29 | the index becomes `PrevImageIndex` and stays on a photo (or −1..0 without photos) |
| `PropertyDetailsPage.RenderView` | src/pages/PropertyDetailsPage.jsx:55-102 | the spinner while loading; then the error; then "not found" exactly for a missing or empty object; the details otherwise |
| `PropertyDetailsPage.AsShown` | src/pages/PropertyDetailsPage.jsx:86 | a stored record is a non-empty object with an id |
| `PropertyDetailsPage.ShowsFetchedListing` | src/pages/PropertyDetailsPage.jsx:26-30 | once `getPropertyById` resolves in the store, the page shows the details when the response carried a listing, and "Property Not Found" when the thunk resolved with undefined |
| `PropertyDetailsPage.FetchedListingShownFromAnyState` | src/pages/PropertyDetailsPage.jsx:26-90 | from any earlier store state (an error, another listing, a spinner), once `getPropertyById` resolves the page shows the listing for a payload record and "Property Not Found" for an undefined payload |
| `PropertyDetailsPage.GalleryAgreesWithCard` | src/pages/PropertyDetailsPage.jsx:135-148 | on a photo, the page's arrows move as the card's do and stay on a photo; next then previous returns |
| `PropertyDetailsPage.GalleryNextOffRange` | src/pages/PropertyDetailsPage.jsx:146-148 | from past the photos, the page's next arrow counts up where the card's returns to 0 |
| `PropertyDetailsPage.MainImage` | src/pages/PropertyDetailsPage.jsx:118-128 | the "No images" panel exactly when there are no photos; otherwise an image whose source is the photo at the index, none when the index is off the photos |
| `PropertyDetailsPage.Gallery.constructor` | src/pages/PropertyDetailsPage.jsx:17 | the gallery starts at index 0 |
| `PropertyDetailsPage.Gallery.Prev` | src/pages/PropertyDetailsPage.jsx:131-137 | the previous arrow moves like the card's and stays on a photo |
| `PropertyDetailsPage.Gallery.Next` | src/pages/PropertyDetailsPage.jsx:144-148 | the next arrow moves like the card's and stays on a photo |
| `PropertyDetailsPage.Gallery.SelectThumbnail` | src/pages/PropertyDetailsPage.jsx:159-164 | a thumbnail sets the index to its position |
| `PropertyDetailsPage.AmenityIcon` | src/pages/PropertyDetailsPage.jsx:33-46 | an icon exactly for wifi, pool, parking and airConditioning; null otherwise |
| `PropertyDetailsPage.AmenityIconsDistinct` | src/pages/PropertyDetailsPage.jsx:33-46 | the four known amenities get four distinct icons |
| `PropertyDetailsPage.AmenityLabel` | src/pages/PropertyDetailsPage.jsx:242 | "airConditioning" displays as "Air Conditioning"; every other amenity as given |
| `PropertyDetailsPage.DefaultAmenityHasIcon` | src/components/CreatePropertyModal.jsx:46 | the amenity a new listing starts with has the wifi icon |

## Left out

- The REST calls and the async thunk bodies are not modelled. Each action carries the payload the thunk resolved or rejected with. The service's write methods return the request they would send.
- `PropertySlice.PropertyStore.CreateFulfilled`, `PropertySlice.PropertyStore.GetAllFulfilled`, `PropertySlice.PropertyStore.FilterFulfilled`, `BookingsSlice.BookingStore.CreateFulfilled` and `BookingsSlice.BookingStore.GetAllFulfilled` assume that the payload is defined. An undefined `response?.data?.data` would push `undefined` into the table or make the table itself undefined. The later updates, deletes and pushes on it would then throw. The state types hold only record lists, so this path is not represented.
- The `makeLogin.fulfilled` reducer reads `action.payload.token`. A login response without a body, on which that read throws, is not modelled. The login payload is the token itself.
- Browser storage (`localStorage`) and `jwtDecode` are parameters. The stored token is a constructor argument. Decoding is a function that may fail.
- JavaScript `Date` is replaced by day numbers:
  - Time zones, daylight saving time, millisecond arithmetic and `Math.ceil` of a day fraction are not modelled. Nights are whole-day differences, so a 25-hour day never counts as two nights.
  - `toLocaleDateString`, `toISOString` and `formatDate` (display text) are not modelled. A draft carries day numbers, not ISO strings.
- `BookingModal.TotalPrice`: prices are natural numbers (cents). `parseFloat` and `toFixed(2)` are not modelled.
- `BookingModal.BookingSession.HandleBookingSubmit` stops at the draft. The dispatch of `createBooking`, the notifications, `isLoading` and closing the dialog are left out.
- `BookingModal.BookingSession.HandleGuestCountChange` takes `maxGuests` as an argument. The property is not modelled as part of the session.
- FileReader previews load asynchronously, in any order. `PreviewLoaded` appends one preview per call; which file each preview belongs to is not tracked.
- The host page passes an already-built FormData to the service, whose `Object.keys` would enumerate nothing. The service is modelled on plain key/value objects only.
- `PropertyService.Flatten` follows the key order it is given. It does not reproduce `Object.keys` ordering (integer-like keys first). Field values are a text or a number; nested objects and their `String()` forms are not modelled.
- `FormData.AppendedScalar`, `CreatePropertyModal.ScalarEntries`, `CreatePropertyModal.ScalarReadBack`, `PropertyService.AppendedValue` and `PropertyService.FlattenFieldReadBack` keep a fractional number, or a whole one of magnitude 1e21 or more, as a number in the body. FormData stores JavaScript's text for it (the shortest decimal that reads back as the same double, or exponent notation), which is not modelled.
- `PropertyDetailsPage.FetchedListingShownFromAnyState` and `PropertyDetailsPage.ShowsFetchedListing`: a payload is a record with an id. A defined but empty `{}` payload, for which the page shows "Property Not Found", is not represented.
- `CreatePropertyModal.ValidFormMeans` states only whether the schema accepts the form.
  - Yup's per-field messages are not modelled.
  - Yup's cast of numeric strings is not modelled: a numeric field holds a text until it holds a number.
- Formik's wiring (`setSubmitting`, `resetForm`, `isSubmitting`) and `onClose` are not modelled. So are the card's hover state and all JSX rendering.
- The selectors, the store configuration, routing, and the context pages (`BookingCard`, login, signup, navbar, cart, host and list pages) are not modelled.
- `PropertyCard.DisplayedImage` and `PropertyDetailsPage.MainImage` assume `property.images` is an array. An undefined `images`, which the card would throw on, is not modelled.
- `PropertyCard.DescriptionPreview` counts characters. JavaScript's `slice` counts UTF-16 code units.
- `PropertyDetailsPage.Gallery` gets its photo count at construction. A listing whose photos change under the page is not modelled.
- The email pattern is matched as ASCII, as the `i` flag without `u` folds only ASCII letters. Characters outside ASCII are rejected by every class of the pattern.

## Findings

| source | as written | input that shows it | evidently intended | confidence | as-written member | corrected member |
|---|---|---|---|---|---|---|
| src/utils/validation.jsx:31 | `!values.role === "Select User Type"` compares the boolean `!values.role` with a string, so it is always false. Only an empty role is flagged. | role = "Select User Type", the text of the selector's first option (src/pages/signup.jsx:110, which has no value attribute). It passes with no "Role Required" error. | `values.role === "Select User Type"`: the placeholder counts as no role | high; not executed | `Validation.ValidateAuthAsWritten` (shown by `Validation.PlaceholderRolePasses`) | `Validation.ValidateAuth` (with `Validation.RoleMissingAcceptsRealRoles`) |

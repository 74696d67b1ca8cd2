# Emirates booking demo: the booking domain in Dafny

This project models the booking logic of an Angular flight-booking demo in Dafny. The
demo keeps a flight catalog, a booking ledger and a user directory in browser storage. It
lets a client search flights, book one in a three-step form, list and cancel their
bookings, and see profile statistics. The model covers:

- the booking service (`Ledger`, class `BookingService`): the catalog and the ledger,
  creating and cancelling bookings, seat labels, confirmation codes, label tables, and
  seeding when storage is empty;
- the authentication service (`Session`, class `AuthService`): the user directory,
  register, login, logout and the role predicates;
- the booking form (`BookingWizard`, class `BookingFormComponent`): the wizard steps,
  passenger initialisation and validation, the price with extras, and the request it sends;
- the bookings list (`MyBookingsView`): the status filter, upcoming and past bookings, and
  when a booking may be cancelled;
- the profile page (`ProfileView`, class `ProfileComponent`): booking count, Emirates
  points, the three most recent bookings, the account type and the edit toggle;
- the flight list (`FlightSearch`, class `FlightsComponent`): the search filters, the
  `year-MM-DD` date text and the seat count text.

`Wrappers`, `Decimal`, `Seqs`, `Text` and `Dates` give the JavaScript built-ins the model
needs: `Option`/`Result`, `String(n)` for integers with a parsing inverse, `filter` and
`find` with their guarantees, ASCII `toLowerCase`/`includes`/`padStart`, and calendar
dates with `<`. The entities of `booking.model.ts`, `flight.model.ts` and `user.model.ts`
are datatypes in `BookingModel`, `FlightModel` and `UserModel`.

Browser storage becomes fields of the service classes. The clock (`new Date()`), the
generated ids (`Date.now()`), the six `Math.random()` draws of a confirmation code and
the seed bookings are parameters. Each asynchronous call is one synchronous method.

The price the booking service stores differs from the price the form shows. The service
stores the class fare times the number of passengers in the request
(`src/app/services/booking.service.ts:248`). The form adds 50 per passenger for an
airport transfer and 10 per kilogram of extra luggage
(`src/app/components/booking-form/booking-form.component.ts:139-144`). The seed bookings
agree with the service: booking 1 has a transfer and totals 1200, one economy fare
(`src/app/services/booking.service.ts:131-134`); booking 2 has 20 kg of luggage and totals
9400, two business fares (`:169-171`). The model follows the code (`Ledger.BookingTotal`).
`BookingWizard.StoredPriceOmitsExtras` proves that the stored price is the shown price
minus the extras whenever the form holds as many passenger entries as its count.

## Model

| member | source | states |
|---|---|---|
| Ledger.BookingService.constructor | src/app/services/booking.service.ts:29-111 | the three sample flights are stored only when the catalog is empty; the seed bookings only when the ledger is empty; stored data is kept otherwise |
| Ledger.BookingService.CreateBooking | src/app/services/booking.service.ts:223-283 | fails with "flight not found" and leaves the ledger unchanged exactly when no catalog flight has the id; otherwise appends exactly one booking at the end and returns it: CONFIRMED, embedding the first catalog flight with that id, carrying the request's user, class, passengers and extras, priced at class fare × passenger count, one seat label per passenger, a 6-character A–Z0–9 code; the user's bookings gain it as their last entry |
| Ledger.BookingService.CancelBooking | src/app/services/booking.service.ts:286-303 | fails with "booking not found" and leaves the ledger unchanged exactly when no booking has the id; otherwise returns true and the ledger becomes CancelledLedger of the old one |
| Ledger.CancelledLedger | src/app/services/booking.service.ts:290-300 | only the first booking with the id becomes CANCELLED, with its other fields unchanged; every other booking, the length, and all ids and owners stay as they were |
| Ledger.CancelIdempotent | src/app/services/booking.service.ts:290-300 | after a cancel the same booking is found again, so a second cancel succeeds, and it changes nothing further |
| Ledger.BookingTotal | src/app/services/booking.service.ts:235-248 | the stored total is the economy, business or first-class fare, as the request's class says, times the number of passengers; 0 for no passengers |
| Ledger.BookingTotalIgnoresExtras | src/app/services/booking.service.ts:235-248 | changing the extras of a request never changes the stored total |
| Ledger.SeatNumbers | src/app/services/booking.service.ts:254-258 | one label per passenger, label i being SeatLabel(i) |
| Ledger.SeatLabelDecodes | src/app/services/booking.service.ts:254-258 | label i reads back as the decimal number 10 + i followed by the letter 'A' + (i mod 6) |
| Ledger.SeatNumbersDistinct | src/app/services/booking.service.ts:254-258 | the labels of one booking are pairwise distinct |
| Ledger.DrawIndex | src/app/services/booking.service.ts:317 | `Math.floor(r * 36)` for a draw r in [0, 1) is a valid index into the 36-character alphabet |
| Ledger.GenerateConfirmationCode | src/app/services/booking.service.ts:313-320 | the code has exactly 6 characters, character i is the alphabet entry of draw i, and every character is in A–Z or 0–9 |
| Ledger.UserBookings | src/app/services/booking.service.ts:201-209 | exactly the bookings of that user, in ledger order, each as often as in the ledger |
| Ledger.UserBookingsAppend | src/app/services/booking.service.ts:276-278 | a booking appended to the ledger becomes the last of its owner's bookings and nothing else changes in that list |
| Ledger.BookingIndex | src/app/services/booking.service.ts:291 | the position of the first booking with the id, or none exactly when no booking has it |
| Ledger.BookingById | src/app/services/booking.service.ts:212-220 | the first booking with the id, or none exactly when no booking has it |
| Ledger.FindFlight | src/app/services/booking.service.ts:227-228 | the first catalog flight with the id, or none exactly when no flight has it |
| Ledger.FlightClassName | src/app/services/booking.service.ts:323-334 | "Económica", "Business" and "Primera Clase", each exactly for its class |
| Ledger.StatusBadgeClass | src/app/services/booking.service.ts:337-350 | "bg-success", "bg-warning", "bg-danger" and "bg-secondary", each exactly for confirmed, pending, cancelled and completed |
| Ledger.StatusText | src/app/services/booking.service.ts:353-366 | "Confirmada", "Pendiente", "Cancelada" and "Completada", each exactly for its status |
| Ledger.LabelsDistinguish | src/app/services/booking.service.ts:322-366 | the class names, status texts and status badge classes give different labels to different classes and statuses |
| Session.AuthService.constructor | src/app/services/auth.ts:17-30 | restores the stored session; the two test accounts are stored only when the directory is empty |
| Session.TestUsers | src/app/services/auth.ts:28-53 | two accounts, the administrator admin@emirates.com / admin123 and the client cliente@example.com / cliente123, both created now, with different emails |
| Session.AuthService.Login | src/app/services/auth.ts:80-105 | succeeds exactly when some account matches both email and password; then the first such account, without its password, is the current user and comes back with token "fake-jwt-token-" + id; a failure reports invalid credentials and leaves the session unchanged |
| Session.CredentialsIndex | src/app/services/auth.ts:85-88 | the position of the first account matching both email and password, or none exactly when no account does |
| Session.AuthService.Register | src/app/services/auth.ts:107-139 | fails, with directory and session unchanged, exactly when the email is already registered; otherwise appends exactly one account at the end and logs it in; unique emails stay unique |
| Session.RegisteredUserLogsIn | src/app/services/auth.ts:111-127 | appending an account with a fresh email keeps emails unique, and a login with its email and password then finds that account |
| Session.AuthService.Logout | src/app/services/auth.ts:141-144 | there is no current user afterwards, so the user is neither authenticated, admin nor client |
| Session.AuthService.IsAuthenticated | src/app/services/auth.ts:68-70 | true exactly when there is a current user, which is exactly when the session is an administrator's or a client's |
| Session.AuthService.IsAdmin | src/app/services/auth.ts:72-74 | true only with a current user, and then exactly when that user is an administrator |
| Session.AuthService.IsClient | src/app/services/auth.ts:76-78 | true only with a current user who is not an administrator, and with a current user exactly when that user is not one |
| BookingWizard.BookingFormComponent.constructor | src/app/components/booking-form/booking-form.component.ts:14-34 | the form starts on step 1 with economy class, one passenger, no flight and no extras |
| BookingWizard.BookingFormComponent.OnInit | src/app/components/booking-form/booking-form.component.ts:43-49 | a non-empty route id loads that catalog flight, a missing one loads nothing; the passenger list is rebuilt either way |
| BookingWizard.BookingFormComponent.LoadFlight | src/app/components/booking-form/booking-form.component.ts:51-68 | the loaded flight is the first catalog flight with the id, or none |
| BookingWizard.BookingFormComponent.InitializePassengers | src/app/components/booking-form/booking-form.component.ts:70-82 | the old list is discarded and exactly numberOfPassengers blank entries (none for a count below 1) with document type "Pasaporte" replace it |
| BookingWizard.BookingFormComponent.OnNumberOfPassengersChange | src/app/components/booking-form/booking-form.component.ts:84-86 | the new count is kept and the list is rebuilt to that many blank entries |
| BookingWizard.BookingFormComponent.ValidateCurrentStep | src/app/components/booking-form/booking-form.component.ts:103-118 | true exactly when the step is not 2 or every passenger has a first name, last name and document number |
| BookingWizard.IncompletePassengerBlocksStep2 | src/app/components/booking-form/booking-form.component.ts:107-115 | one passenger with a missing field makes step 2 fail to validate |
| BookingWizard.BookingFormComponent.NextStep | src/app/components/booking-form/booking-form.component.ts:88-95 | advances by one exactly when not on the last step and the current step validates, and the step stays within 1..3 |
| BookingWizard.BookingFormComponent.PreviousStep | src/app/components/booking-form/booking-form.component.ts:97-101 | goes back by one unless on step 1, and the step stays within 1..3 |
| BookingWizard.BookingFormComponent.GetClassPrice | src/app/components/booking-form/booking-form.component.ts:203-216 | 0 without a flight, otherwise the loaded flight's fare for that class |
| BookingWizard.BookingFormComponent.CalculateTotalPrice | src/app/components/booking-form/booking-form.component.ts:120-147 | 0 without a flight, otherwise fare × passengers + (transfer ? 50 × passengers : 0) + (luggage > 0 ? 10 × luggage : 0) |
| BookingWizard.ExtrasCostNonNegative | src/app/components/booking-form/booking-form.component.ts:138-146 | for zero or more passengers the extras never lower the price, and they add nothing exactly when there is no charged transfer and no positive luggage |
| BookingWizard.NoExtrasPrice | src/app/components/booking-form/booking-form.component.ts:123-136 | with no transfer and no luggage the total is the class price times the passenger count |
| BookingWizard.SubmittedExtras | src/app/components/booking-form/booking-form.component.ts:165-170 | each extra is absent exactly when the form holds false, a luggage amount of 0 or less, or an empty text; a present transfer is true, and a present luggage amount, meal preference or assistance text is exactly the form's value |
| BookingWizard.SubmittedExtrasRoundTrip | src/app/components/booking-form/booking-form.component.ts:165-170 | reading the submitted extras back gives the form's extras (a negative luggage amount reads back as 0), with the same extras price |
| BookingWizard.BookingFormComponent.SubmittedDto | src/app/components/booking-form/booking-form.component.ts:149-171 | no request without a flight or a session; otherwise the session user, the flight id, the selected class, the passengers and the submitted extras |
| BookingWizard.StoredPriceOmitsExtras | src/app/services/booking.service.ts:235-248 | the price the service stores for the form's request is the class price the form shows times the number of passenger entries; when there are numberOfPassengers entries, it is the form's total minus the extras price |
| BookingWizard.StoredPriceForNoPassengers | src/app/services/booking.service.ts:248 | with a count below 1 the form holds no entries, so the service stores 0 while the form prices the fare times that count plus the extras |
| MyBookingsView.FilteredBookings | src/app/components/my-bookings/my-bookings.component.ts:53-58 | "all" gives the whole list; any other filter gives exactly the bookings whose status code equals it, in order |
| MyBookingsView.UnknownFilterShowsNothing | src/app/components/my-bookings/my-bookings.component.ts:53-58 | a filter that is neither "all" nor a status code shows no booking |
| MyBookingsView.UpcomingBookings | src/app/components/my-bookings/my-bookings.component.ts:60-66 | exactly the confirmed bookings whose flight leaves after now, in order |
| MyBookingsView.PastBookings | src/app/components/my-bookings/my-bookings.component.ts:68-74 | exactly the bookings whose flight left at or before now or that are completed, in order |
| MyBookingsView.UpcomingPastSeparate | src/app/components/my-bookings/my-bookings.component.ts:60-74 | no booking is both upcoming and past; a cancelled or pending booking with a future flight is in neither; every confirmed or completed booking is in one of them |
| MyBookingsView.CanCancelBooking | src/app/components/my-bookings/my-bookings.component.ts:137-142 | true exactly when the booking is upcoming (confirmed, flight after now), so never for a past booking |
| MyBookingsView.CanCancelIffUpcoming | src/app/components/my-bookings/my-bookings.component.ts:137-142 | a booking of the list may be cancelled exactly when it is among the upcoming ones |
| ProfileView.ProfileComponent.constructor | src/app/components/profile/profile.component.ts:14-29 | the page starts with no user, not editing, an empty form and zero statistics |
| ProfileView.ProfileComponent.ShowUser | src/app/components/profile/profile.component.ts:44-59 | the reported user becomes current, the form holds their name and email, and the account type follows their role |
| ProfileView.ProfileComponent.LoadUserBookings | src/app/components/profile/profile.component.ts:68-93 | the count is the number of bookings, the points are Points of them, the list is reordered newest first keeping the same bookings, and the recent ones are its first three |
| ProfileView.TotalSpent | src/app/components/profile/profile.component.ts:76-82 | the loop's sum is Points of the bookings |
| ProfileView.PointsIgnoreCancelled | src/app/components/profile/profile.component.ts:76-82 | the points are the total price of the bookings that are not cancelled |
| ProfileView.PointsAfterCancel | src/app/components/profile/profile.component.ts:76-82 | cancelling one booking lowers the points by exactly what it contributed |
| ProfileView.SortNewestFirst | src/app/components/profile/profile.component.ts:85-86 | the sorted list has no booking older than a later one, and it holds the same bookings as the input |
| ProfileView.RecentBookings | src/app/components/profile/profile.component.ts:85-87 | at most three bookings, fewer only when fewer exist, newest first, the first ones of the sorted list, all taken from the input |
| ProfileView.RecentAreNewest | src/app/components/profile/profile.component.ts:85-87 | every booking left out of the recent ones is no newer than any recent one |
| ProfileView.AccountType | src/app/components/profile/profile.component.ts:59 | "Administrador" exactly for the admin role, "Cliente" otherwise |
| ProfileView.BadgeFollowsAccountType | src/app/components/profile/profile.component.ts:112-114 | the account type is "Administrador" exactly for admins, and the red badge goes to exactly those accounts |
| ProfileView.ProfileComponent.GetRoleBadgeClass | src/app/components/profile/profile.component.ts:112-114 | the red badge exactly when the current user is an admin, the blue one otherwise |
| ProfileView.ProfileComponent.ToggleEdit | src/app/components/profile/profile.component.ts:95-102 | editing flips; turning it off with a user restores the form to the user's name and email, otherwise the form is untouched |
| ProfileView.ProfileComponent.SaveChanges | src/app/components/profile/profile.component.ts:104-110 | editing ends |
| FlightSearch.FlightsComponent.constructor | src/app/components/flights/flights.component.ts:13-22 | no flights and empty criteria at the start |
| FlightSearch.FlightsComponent.LoadFlights | src/app/components/flights/flights.component.ts:43-56 | the catalog is stored and shown in full |
| FlightSearch.MatchingFlights | src/app/components/flights/flights.component.ts:58-69 | a subsequence of the catalog holding exactly the flights meeting every criterion, each as often as in the catalog |
| FlightSearch.FlightsComponent.ApplyFilters | src/app/components/flights/flights.component.ts:58-69 | the shown flights become the catalog flights matching the current criteria, a subsequence of the catalog |
| FlightSearch.NoCriteriaKeepsAll | src/app/components/flights/flights.component.ts:59-67 | with all criteria empty every flight is kept |
| FlightSearch.MatchIgnoresCase | src/app/components/flights/flights.component.ts:60-63 | changing the case of any letters of the field and of the query (texts equal letter by letter up to case) never changes whether they match |
| FlightSearch.OccurrenceMatches | src/app/components/flights/flights.component.ts:60-63 | a query occurring in the field as written matches it |
| FlightSearch.FlightsComponent.ClearFilters | src/app/components/flights/flights.component.ts:71-76 | all criteria become empty and the whole catalog is shown, which is what the empty criteria select |
| FlightSearch.TwoDigitsRoundTrip | src/app/components/flights/flights.component.ts:104-105 | a month or day from 1 to 99 padded to two characters reads back as itself |
| FlightSearch.FormatDateForInput | src/app/components/flights/flights.component.ts:101-107 | the text of a date reads back, as year, two-digit month and two-digit day between dashes, as its year, its month counted from 1 and its day |
| FlightSearch.FormatDateSameDay | src/app/components/flights/flights.component.ts:64-65 | two dates give the same text exactly when they are the same calendar day, so the date criterion selects flights of that day |
| FlightSearch.AvailableSeatsText | src/app/components/flights/flights.component.ts:109-114 | the text ends in " asientos disponibles" and the part before reads back as the sum of the three per-class seat counts |

## Left out

- Browser storage and JSON: the stored collections are fields, and what a JSON round trip does to dates (they come back as strings) is not modelled.
- rxjs observables, `BehaviorSubject` and `delay`: each call is synchronous, and the subscriptions that push the session to the pages are not modelled.
- `Math.random()`: the six draws are a parameter of `Ledger.GenerateConfirmationCode`.
- `Date.now()` ids and `new Date()` timestamps are parameters; the code does not make the ids unique, and neither does the model.
- Dates are calendar records ordered by year, month, day and time of day; time zones, daylight saving and `Date` arithmetic are not modelled.
- Locale formatting (`formatPrice`, `formatDate`, `memberSince`), `alert`, `confirm`, `console` and router navigation are left out.
- The seed bookings are a parameter: their hand-written seat labels do not follow the generator, so their contents are not modelled.
- `getAvailableFlights` only returns the catalog; it is the `flights` field.
- The guards, route and module configuration, the header, home, login and register components, the detail modal of the bookings list and `getCurrentUserPromise` are not part of this model.
- JavaScript numbers are taken as integers: every price and count in the data is integral, so `Math.floor` on the points is the identity.
- `toLowerCase` is modelled on ASCII letters only.
- The bookings list reads the clock separately in `upcomingBookings`, `pastBookings` and `canCancelBooking` (`src/app/components/my-bookings/my-bookings.component.ts:61`, `:69`, `:140`); the model uses one `now` for all three, so what `UpcomingPastSeparate` and `CanCancelIffUpcoming` state holds for one instant, not across readings taken at different times.
- The texts of the thrown errors ("Vuelo no encontrado", "Reserva no encontrada", "Email o contraseña incorrectos", "El email ya está registrado") are stood for by the error constructors.
- The `default` branches of the label switches cannot be reached with the closed enumerations of the model.
- ProfileView.SortNewestFirst: states the order and that the bookings are the same, not how ties are ordered; the model sorts stably, as JavaScript's sort does.
- FlightSearch.FormatDateForInput: the read-back is proved for dates with month 0–11 and day 1–31, the only ones a `Date` yields.

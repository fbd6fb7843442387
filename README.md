# EV charging station booking engine, in Dafny

This project models the reservation engine of an EV charging booking web
application (an Express server over MongoDB). Users reserve a charging
station (a *product*) for a time window. A six-digit PIN confirms their
arrival at the station. A periodic sweep cancels reservations that nobody
confirmed in time.

The collections become an in-memory store: a map of bookings, a map of
products, the set of existing user ids, and a counter that stands for the
fresh ObjectId of an inserted booking. Each HTTP handler runs to completion before the next one starts.
Time is an integer count of milliseconds, and `now` is a parameter. A value
of `Math.random()` is a parameter of type `Pin.Draw` (a real in [0, 1)).

Modules:

- `BookingModel` and `ProductModel` (`booking_model.dfy`, `product_model.dfy`)
  model the Mongoose schemas. Each has a datatype for stored records, a
  datatype for the fields given to the constructor, and a `Create` function.
  `Create` applies the defaults, the enum validator and the `required` flags.
  Mongoose rejects an empty string on a required String path, and so does
  the model.
- `Pin` (`pin.dfy`) models `generatePin`, which both routers define in the
  same way: `Math.floor(100000 + r * 900000).toString()`. It also holds the
  decimal rendering and its inverse.
- `Availability` (`availability.dfy`) holds the overlap query. It also holds
  the invariant `ActiveDisjoint`: active bookings on one station have
  pairwise non-overlapping windows.
- `Store` (`store.dfy`) holds the store value, the responses, the record
  every creation route builds, and the "if the product exists, set its
  status" update.
- `MyRouter` and `ApiRouter` (`my_router.dfy`, `api_router.dfy`) give each
  booking handler as a pure step function, from the old store to the new
  store and a response. Lemmas next to them state what each handler
  promises.
- `Lifecycle` (`lifecycle.dfy`) puts all the handlers together as one state
  machine (`Handle`, `Run`). It proves the invariants the handlers keep and
  refutes the one they do not keep. It also proves five scenarios on a one-station store.
- `Server` (`server.dfy`) is the class `BookingSystem`. Its methods change
  the store fields in place, as the routes do. Each method is proved to
  produce the store and response of its step function. The sweep is a loop
  over the selected bookings.

The model follows the code wherever the code does less than a tidy state
machine would:

- `/confirm-arrival` does not check the booking's status. It accepts a
  matching PIN at any instant of the closed window [start, end]. It can
  therefore revive a cancelled or completed booking, and in doing so break
  `ActiveDisjoint` (`Lifecycle.ConfirmArrivalRevivesOverlap`, `Lifecycle.ReviveScenario`).
- `/complete-booking` and `/cancel-booking` check only that the booking
  exists and that the requester owns it.
- `/book` (in both routers) does not check that the station is `Available`.
  Only `POST /bookings` in apiRouter.js checks this.
- Nothing checks that `start < end`.
- A station's status is simply the last value written to it. It is not kept
  consistent with its bookings (`Lifecycle.StationStatusDrifts`).
- Confirming arrival twice with the right PIN succeeds both times. The second
  call changes nothing (`MyRouter.ConfirmArrivalTwice`). It does not fail, as
  a stricter design would have it.
- Two handlers can fail after a partial write: `/cancel-booking-admin` and
  `POST /book` in apiRouter.js. Each saves the booking first and then sets
  the status of a station record that may not exist. The model keeps the
  saved booking and answers `ServerError`. The other handlers guard with
  `if (product)` and skip the station update.
- `/accept-booking` loads the booking with its station and its user
  populated. A missing station or user record populates as `null`, so the
  `required` validator fails the save. The answer is `ServerError` and
  nothing is written.

## Model

| member | source | states |
|---|---|---|
| `BookingModel.ParseStatus` | models/booking.js:14-18 | a status string is accepted only if it is one of 'Booked', 'Completed', 'Cancel', 'In Use', and it is accepted as the status with that name |
| `BookingModel.ParseStatusName` | models/booking.js:14-18 | every status's stored name is accepted back as that status |
| `BookingModel.Create` | models/booking.js:3-43 | a record is rejected exactly when a required path is missing (or an empty string), or when the status is outside the enum; the error is the set of failing paths; otherwise every given field is kept, and `status` defaults to 'Booked', `arrived` to false and `createdAt` to the creation instant |
| `ProductModel.ParseStatus` | models/product.js:36-40 | only 'Available', 'Booked', 'In Use' are accepted, each as the status of that name |
| `ProductModel.ParseStatusName` | models/product.js:36-40 | every product status's name is accepted back as that status |
| `ProductModel.Create` | models/product.js:15-41 | rejected exactly when charge_code, connector_types or description is missing or empty, or when the status is outside the enum; otherwise every given field is kept, and `price` defaults to 0, `image` to "0" and `status` to 'Available' |
| `Pin.PinNumber` | routes/myRouter.js:13-15 | the PIN number lies in [100000, 999999] for every random draw in [0, 1) |
| `Pin.PinNumberReaches` | routes/apiRouter.js:10-13 | every number in [100000, 999999] is the PIN of some draw, so the range is exactly that interval |
| `Pin.GeneratePin` | routes/apiRouter.js:10-13 | the PIN string has exactly six decimal digits, the first one not zero, and its value lies in [100000, 999999] |
| `Pin.DecimalStringDigits` | routes/myRouter.js:14 | `toString` of a non-negative integer yields only decimal digits |
| `Pin.ParseDecimalString` | routes/myRouter.js:14 | parsing the decimal string gives back the number (round trip) |
| `Pin.DecimalLength` | routes/myRouter.js:14 | a number in [10^(k-1), 10^k) is rendered as exactly k characters |
| `Pin.LeadingDigitNotZero` | routes/myRouter.js:14 | the rendering of a positive number does not start with '0' |
| `Pin.DecimalStringInjective` | routes/myRouter.js:473 | two PIN strings are equal exactly when their numbers are equal, so the string comparison at confirmation compares PINs |
| `Availability.TouchingDoesNotConflict` | routes/myRouter.js:308-314 | a window that only touches an existing booking at a boundary does not conflict with it |
| `Availability.InactiveDoesNotConflict` | routes/apiRouter.js:159-165 | every conflicting booking is 'Booked' or 'In Use'; 'Completed' and 'Cancel' bookings never conflict |
| `Availability.Conflicts` | routes/myRouter.js:308-314 | the overlap query returns only ids of stored bookings |
| `Availability.OverlapsSymmetric` | routes/apiRouter.js:289-295 | the overlap test gives the same answer with the two windows swapped |
| `Availability.OverlapsIffSharedInstant` | routes/apiRouter.js:163 | for non-empty windows, the test holds exactly when the two half-open windows share an instant |
| `Availability.AdmitKeepsDisjoint` | routes/myRouter.js:307-330 | adding a booking under a fresh id, when the overlap query found nothing, keeps active windows on each station pairwise disjoint |
| `Availability.DeactivateKeepsDisjoint` | routes/myRouter.js:386-387 | moving a booking to 'Completed' or 'Cancel' keeps `ActiveDisjoint` |
| `Availability.ActivateKeepsDisjoint` | routes/myRouter.js:406-411 | moving an active booking ('Booked' or 'In Use') to 'In Use', arrived or not, keeps `ActiveDisjoint` |
| `Store.SetProductStatus` | routes/myRouter.js:333-337 | only the named station's status changes, and only if that station exists; all other stations are kept |
| `Store.NewBooking` | routes/apiRouter.js:172-182 | the record a creation route saves always passes schema validation, with status 'Booked', `arrived` false, a six-digit generated PIN, `createdAt` = now and `expirationTime` = start + 30 * 60000 |
| `Store.EvolvesTransitive` | routes/myRouter.js:31-493 | two evolutions of the store in a row are one evolution: `Evolves` (only statuses and arrival flags change, bookings are never deleted and new ones get fresh ids, stations are neither added nor removed, users are untouched) is transitive |
| `MyRouter.UpdateStatusOnlyCancelsBooked` | routes/myRouter.js:90-111 | succeeds exactly on an existing 'Booked' booking, which becomes 'Cancel' with its station 'Available'; otherwise it reports failure and changes nothing |
| `MyRouter.UpdateStatus` | routes/myRouter.js:90-111 | the /update-status handler; a failure leaves the store unchanged |
| `MyRouter.Book` | routes/myRouter.js:294-344 | the /book handler; a failure leaves the store unchanged |
| `MyRouter.CompleteBooking` | routes/myRouter.js:349-374 | the /complete-booking handler; a failure leaves the store unchanged |
| `MyRouter.CancelBooking` | routes/myRouter.js:379-400 | the /cancel-booking handler; a failure leaves the store unchanged |
| `MyRouter.AcceptBooking` | routes/myRouter.js:403-422 | the /accept-booking handler; a failure, the server error included, leaves the store unchanged |
| `MyRouter.CancelBookingAdmin` | routes/myRouter.js:425-444 | the /cancel-booking-admin handler; a failure other than the server error leaves the store unchanged |
| `MyRouter.ConfirmArrival` | routes/myRouter.js:467-493 | the /confirm-arrival handler; a failure leaves the store unchanged |
| `MyRouter.Sweep` | routes/myRouter.js:31-48 | one sweep pass; it keeps the booking ids, the station ids, the users and the id counter |
| `MyRouter.SweepEvolves` | routes/myRouter.js:31-48 | the sweep only changes statuses (`Evolves`) |
| `MyRouter.BookAdmission` | routes/myRouter.js:294-344 | succeeds exactly when no active booking on the station overlaps; a rejection changes nothing; a success adds exactly one booking under the fresh id ('Booked', not arrived, expiring 30 minutes after its start), keeps every other booking, and sets that station alone to 'Booked' if it exists |
| `MyRouter.OwnerTransitionsIgnoreStatus` | routes/myRouter.js:349-400 | complete and cancel succeed exactly for the booking's owner; otherwise they change nothing; for the owner they set 'Completed' or 'Cancel' whatever the previous status, and set the station to 'Available' |
| `MyRouter.AdminTransitionsOnlyFromBooked` | routes/myRouter.js:403-444 | accept and admin cancel change nothing unless the caller is an admin and the booking is 'Booked'; accept then succeeds exactly when the booking's station and user records exist, setting 'In Use' on both booking and station, and otherwise answers a server error with nothing written; admin cancel sets 'Cancel' and frees the station, and answers a server error after that write when the station record is missing |
| `MyRouter.ConfirmArrivalGate` | routes/myRouter.js:467-493 | succeeds exactly when the booking exists, the PIN matches and start <= now <= end; a failure changes nothing; a success sets `arrived`, 'In Use' and the station to 'In Use', whatever the previous status |
| `MyRouter.ConfirmArrivalTwice` | routes/myRouter.js:473-479 | after a successful confirmation, the same confirmation succeeds again and leaves the store as it is |
| `MyRouter.SweepCancelsExactlyExpired` | routes/myRouter.js:31-48 | one sweep sets to 'Cancel' exactly the 'Booked' bookings with expirationTime < now, and leaves every other booking unchanged |
| `MyRouter.SweepSparesUnbooked` | routes/myRouter.js:33-36 | a booking that is 'In Use', 'Completed' or 'Cancel' is never touched by the sweep |
| `MyRouter.SweepLeavesNoneExpired` | routes/myRouter.js:33-40 | after a sweep, no booking is left that the sweep's query would select |
| `MyRouter.SweepIdempotent` | routes/myRouter.js:31-48 | a second sweep at the same instant changes nothing |
| `MyRouter.SweepReleasesStations` | routes/myRouter.js:42-46 | the existing station of every expired booking is 'Available' after the sweep; every other station keeps its record |
| `ApiRouter.CreateBookingAdmission` | routes/apiRouter.js:148-193 | POST /bookings creates a booking exactly when the station exists, is 'Available' and no window overlaps; otherwise it changes nothing; on success it returns the stored booking with its PIN, with status 'Booked' and expiry start + 30 min, and the station becomes 'Booked' |
| `ApiRouter.BookAdmission` | routes/apiRouter.js:277-323 | POST /book is rejected (changing nothing) exactly when a window overlaps; it returns the new booking exactly when the station also exists; with the station missing, the booking is inserted under the fresh id, the stations are untouched and the answer is a server error |
| `ApiRouter.BookIgnoresStationStatus` | routes/apiRouter.js:277-299 | on a station already 'Booked' or 'In Use' with no overlapping window, POST /book admits the booking while POST /bookings refuses it as unavailable |
| `ApiRouter.CreateBooking` | routes/apiRouter.js:148-193 | the POST /bookings handler; anything but a creation leaves the store unchanged |
| `ApiRouter.Book` | routes/apiRouter.js:277-323 | the POST /book handler; a rejection for an overlapping window leaves the store unchanged |
| `Lifecycle.Handle` | routes/myRouter.js:31-493 | a request goes to its handler (or is one sweep pass); no handler touches the users or adds or removes a station, and the id counter never goes back |
| `Lifecycle.Run` | routes/myRouter.js:31-493 | requests handled one after another; from a well-formed store the result is an evolution of it (`Evolves`) |
| `Lifecycle.HandleEvolves` | routes/myRouter.js:31-493 | from a well-formed store, every handler only evolves the store (`Evolves`) |
| `Lifecycle.RejectionChangesNothing` | routes/myRouter.js:353-356 | every rejected request leaves the store unchanged, except a server error from admin cancel or POST /book in apiRouter.js |
| `Lifecycle.ServerErrorMeansMissingRecord` | routes/myRouter.js:403-444 | a server error comes only from accept (a missing station or user record; nothing written), admin cancel (a missing station; the booking already 'Cancel') or POST /book in apiRouter.js (a missing station; the booking already inserted) |
| `Lifecycle.HandleKeepsWellFormed` | routes/apiRouter.js:172-180 | every handler keeps ids below the next fresh id, six-digit PINs, and expirationTime = startTime + 30 min |
| `Lifecycle.RunKeepsWellFormed` | routes/apiRouter.js:302-309 | any sequence of requests keeps the store well formed |
| `Lifecycle.SweepKeepsDisjoint` | routes/myRouter.js:38-40 | the sweep keeps `ActiveDisjoint` |
| `Lifecycle.HandleKeepsDisjoint` | routes/myRouter.js:307-318 | every handler keeps `ActiveDisjoint`; /confirm-arrival does so when its booking is missing or still active |
| `Lifecycle.RunKeepsDisjoint` | routes/apiRouter.js:288-299 | any sequence of requests keeps `ActiveDisjoint` when each arrival confirmation in it finds its booking missing or still active |
| `Lifecycle.ConfirmArrivalRevivesOverlap` | routes/myRouter.js:473-478 | confirming a booking that overlaps another active booking on its station breaks `ActiveDisjoint` |
| `Lifecycle.TouchingWindowsScenario` | routes/apiRouter.js:153-169 | [10:00, 11:00) then [11:00, 12:00): both /book routes admit the second window, while POST /bookings refuses it as the station is 'Booked' |
| `Lifecycle.OverlapRejectedScenario` | routes/myRouter.js:316-318 | [10:00, 11:00) then [10:30, 10:45): the second request gets SlotTaken and changes nothing |
| `Lifecycle.StationStatusDrifts` | routes/myRouter.js:386-393 | cancelling one of two touching 'Booked' bookings sets the station to 'Available' while the other booking is still 'Booked' |
| `Lifecycle.SweepScenario` | routes/myRouter.js:31-48 | an unconfirmed booking past its expiry is 'Cancel' after one sweep, with its station 'Available'; a booking confirmed before the sweep stays 'In Use' |
| `Lifecycle.ReviveScenario` | routes/myRouter.js:467-486 | book, cancel, book the same window again, then confirm the cancelled booking with its PIN: `ActiveDisjoint` held before the confirmation and fails after it |
| `Server.BookingSystem.SaveProductStatus` | routes/myRouter.js:333-337 | the in-place station update leaves the stations as `SetProductStatus` says, and leaves the bookings unchanged |
| `Server.BookingSystem.SaveBookingStatus` | routes/myRouter.js:386-387 | only the named booking's status changes |
| `Server.BookingSystem.Insert` | routes/myRouter.js:321-330 | the booking is stored under the fresh id, and the id counter advances |
| `Server.BookingSystem.UpdateStatus` | routes/myRouter.js:90-111 | the new store and the response are those of `MyRouter.UpdateStatus`, and the store stays well formed |
| `Server.BookingSystem.Book` | routes/myRouter.js:294-344 | new store and response as `MyRouter.Book`; well formed |
| `Server.BookingSystem.CompleteBooking` | routes/myRouter.js:349-374 | new store and response as `MyRouter.CompleteBooking`; well formed |
| `Server.BookingSystem.CancelBooking` | routes/myRouter.js:379-400 | new store and response as `MyRouter.CancelBooking`; well formed |
| `Server.BookingSystem.AcceptBooking` | routes/myRouter.js:403-422 | new store and response as `MyRouter.AcceptBooking`; nothing is written unless the station and user records exist; well formed |
| `Server.BookingSystem.CancelBookingAdmin` | routes/myRouter.js:425-444 | new store and response as `MyRouter.CancelBookingAdmin`; well formed |
| `Server.BookingSystem.ConfirmArrival` | routes/myRouter.js:467-493 | new store and response as `MyRouter.ConfirmArrival`; well formed |
| `Server.BookingSystem.Sweep` | routes/myRouter.js:31-48 | the loop over the selected bookings leaves the store equal to `MyRouter.Sweep`; well formed |
| `Server.BookingSystem.CreateBooking` | routes/apiRouter.js:148-193 | new store and response as `ApiRouter.CreateBooking`; well formed |
| `Server.BookingSystem.ApiBook` | routes/apiRouter.js:277-323 | new store and response as `ApiRouter.Book`, including the partial write; well formed |

## Left out

- Authentication and sessions: the `isAuthenticated` and `isAdmin` middleware (JWT, sessions) are not part of this model. The requester's identity is a plain `UserId` parameter, and the admin middleware's verdict is the boolean `isAdmin`. `/update-status` and the apiRouter routes have no middleware, and neither does the model of them.
- HTTP details: status codes, redirects and the (Thai) message texts collapse into one `Error` value per distinct response. myRouter `/book` answers `{success: true}` without the record; apiRouter answers with the record (`Created`).
- Concurrency: `setInterval` scheduling, the un-awaited `async forEach` in the sweep, and interleavings between handlers are not modelled. Each handler is atomic, and one sweep pass is a sequential loop. The code has no conditional update, and the model does not invent one.
- Time: a `Date` is its millisecond value. myRouter.js:304-305 adds 30 minutes with `setMinutes` in local time, which the model treats as exactly 30 * 60000 ms. A daylight-saving change inside that half hour is not modelled. Invalid dates (`NaN`) from unparsable request strings are not modelled.
- Floating point: `Math.random()` is a real in [0, 1), and `100000 + r * 900000` is computed exactly. Double rounding is not modelled, and it does not move the result out of [100000, 999999]. Uniformity of the draw is not stated: `Pin.PinNumberReaches` only shows that every value in the range is reachable.
- Request typing: the PIN in a confirmation request is a string. A JSON number sent by a client would never be `===` to the stored string; the model does not represent that case.
- Type casting by Mongoose (ObjectId and Date casts, `CastError`) is not modelled: ids are naturals, and times are integers. A product's `price` is an integer rather than a JavaScript Number.
- Error paths of the database itself (a failed `save`, a lost connection) are not modelled. Only the failures that follow from the handlers' own code on a missing station or user record are modelled.
- ServerErrorMeansMissingRecord: does not cover a request body that lacks `userId`, `productId`, `startTime` or `endTime`. The handlers take these as parameters that are always present, so the model has no request with an absent field. In the code, such a request fails schema validation or a Date cast at the save and answers 500 with nothing written.
- Product catalogue CRUD, uploads, search, feedback, users, profiles and the report aggregation in routes/myRouter.js and routes/apiRouter.js are not part of this model. Neither are app.js, models/user.js and models/feedback.js.
- Station-status consistency (a station is 'Available' exactly when no active booking names it) is not an invariant of the model, because the code does not maintain it. `Lifecycle.StationStatusDrifts` exhibits a violation.

# Car-rental back end: booking engine and record rules in Dafny

This project models the core of a car-rental management back end. The back end is an Express and Mongoose service that keeps clients, vehicles and bookings. The model covers:

- **The booking engine:** the `hasConflict` overlap test, the ordered checks of create and update, the status-only update and delete, and the booking schema's validators and pre-save double-booking hook. On top of these it proves the central invariant: no two Active bookings of one vehicle overlap.
- **The quick-action routes:** their own inclusive availability rule, the two-clause conflict check of `/add-booking`, the amount formula, the return transition, the payment-reminder guard and the daily summary.
- **Client and vehicle records:** duplicate detection with normalisation, merge-on-update, status enumerations, the path validators (phone and plate character sets, the HH:MM pattern, which like every `match` validator passes an empty string, length and range bounds) and duplicate-key error mapping.

Each table the source updates in place is a class holding a `map` from id to record. The classes are `BookingTable`, `QuickDesk`, `ClientRegistry` and `Garage`. Each handler is a method on its class, and it is specified by a pure decision function (`CheckCreate`, `CheckUpdate`, `AddOutcome`, …) that is proved to follow the source's order of checks. The lemmas about those functions carry the properties.

Modelling conventions:

- Dates are integers (milliseconds). A request date is absent, unparseable, or a date (`DateInput`).
- "Today at midnight", "now" and the current year are parameters.
- A path id is `Option<Id>`: `None` stands for a string that is not a well-formed object id. Where the source does not test the id first, the driver's cast error makes such an id a 500.
- JavaScript truthiness of request fields is `Given` (absent or `""` is falsy) and `GivenNumber` (absent or `0` is falsy).
- The schema setters `trim` and `uppercase` are applied to every assigned value. They are applied to query filter values too (Mongoose casts filter values through the path's setters), so `findOne({ phone: " 0712 " })` looks for `"0712"`.
- `trim` removes ECMAScript whitespace. `toUpperCase` is modelled on ASCII letters only.

Modules:

| file | module | contents |
|---|---|---|
| common.dfy | `Common` | Option, Outcome, truthiness, DateInput, the error shape, JavaScript `trim` and ASCII `toUpperCase` with their algebra |
| booking_model.dfy | `BookingModel` | booking record, validators, status enumeration, pre-save hook |
| booking_controller.dfy | `BookingController` | `hasConflict`, the create/update/status/delete decisions, the no-double-booking invariant, `BookingTable` |
| quick_actions.dfy | `QuickActions` | the quick-action routes and `QuickDesk` |
| client_model.dfy | `ClientModel` | client record, setters, validators, duplicate-key messages |
| client_controller.dfy | `ClientController` | addClient, updateClient, status update, status filter, delete, `ClientRegistry` |
| vehicle_model.dfy | `VehicleModel` | vehicle record, validators, time and plate patterns, duplicate-key mapping |
| vehicle_controller.dfy | `VehicleController` | addVehicle, updateVehicleStatus, updateVehicle, deleteVehicle, `Garage` |

## Model

| member | source | states |
|---|---|---|
| Common.TrimUpperAbsorbsUpper | src/models/Vehicle.js:32-33 | Upper-casing a value before a `trim` + `uppercase` setter stores the same value as not upper-casing it. |
| BookingModel.DefaultStatusIsActive | src/models/Booking.js:38-42 | A booking created without a status is Active, and Active is in the enumeration. |
| BookingModel.OverlapClausesAreHalfOpen | src/models/Booking.js:64-80 | For non-empty intervals the hook's three clauses hold exactly when the half-open intervals overlap. |
| BookingModel.StatusOnlySaveProceeds | src/models/Booking.js:59 | A save of an existing document that modifies only status or client skips the query and proceeds. |
| BookingModel.PreSaveIgnoresOwnRecord | src/models/Booking.js:61 | The hook's verdict does not depend on the document's own stored version. |
| BookingModel.PreSaveIsHalfOpenOverlap | src/models/Booking.js:56-94 | The hook aborts with DoubleBookingError exactly when it is due and another Active booking of the same vehicle overlaps half-open; otherwise it proceeds. |
| BookingController.HasConflictIsHalfOpenOverlap | src/controllers/bookingController.js:7-19 | `hasConflict` holds exactly when some Active booking of the vehicle, other than the excluded id, overlaps the half-open interval. |
| BookingController.BackToBackIsNoConflict | src/controllers/bookingController.js:13-15 | Bookings ending at the start or starting at the end of the request are never a conflict. |
| BookingController.HookAgreesWithHasConflict | src/models/Booking.js:59-87 | When it runs, the hook decides exactly as `hasConflict` excluding the document's id. |
| BookingController.CheckCreate | src/controllers/bookingController.js:25-78 | The first violated check in the order missing, client, vehicle, suspended, date format, past start, end ≤ start, conflict is reported. With none violated, the result is an Active booking with the requested client, vehicle and dates. |
| BookingController.CheckUpdate | src/controllers/bookingController.js:170-216 | The same chain without the past-start check, with a combined not-found check and the conflict test excluding the booking's own id. The 404 comes after the conflict check. The status is written as supplied (kept when absent). |
| BookingController.CheckStatusUpdate | src/controllers/bookingController.js:242-257 | Invalid id and invalid status refuse (400). A valid status for an absent booking is 404. Success holds exactly when the status is in the enumeration and the booking exists. Only the status changes. |
| BookingController.CheckDelete | src/controllers/bookingController.js:277-282 | A malformed id is 400 (Invalid booking ID). Success holds exactly for an existing id. An absent one is 404. |
| BookingController.InsertWithoutConflictPreserves | src/controllers/bookingController.js:66-78 | Writing a non-empty booking that `hasConflict` does not report keeps the table free of double bookings. |
| BookingController.CreatePreservesNoDoubleBooking | src/controllers/bookingController.js:66-78 | A successful create keeps the no-double-booking invariant. |
| BookingController.UpdatePreservesNoDoubleBooking | src/controllers/bookingController.js:200-210 | A successful update keeps the invariant, whatever status it writes. |
| BookingController.CreatedBookingPassesSchema | src/controllers/bookingController.js:60-78 | A booking the controller accepts also passes the schema validators and the pre-save hook, so `Booking.create` succeeds. |
| BookingController.SuspendedClientForbidden | src/controllers/bookingController.js:45-51 | A suspended client is refused with 403 by create and by update. |
| BookingController.UpdateNeverConflictsWithItself | src/controllers/bookingController.js:7-19 | For every table, `hasConflict` excluding a booking's id decides exactly as `hasConflict` on the table without that booking, so the booking's own record never counts against it. |
| BookingController.StatusUpdateIdempotent | src/controllers/bookingController.js:247-251 | Applying the same status twice gives the record that applying it once gives. |
| BookingController.StatusNarrowingPreserves | src/controllers/bookingController.js:242-257 | A status update to anything other than Active keeps the invariant. |
| BookingController.ReactivationBreaksNoDoubleBooking | src/controllers/bookingController.js:244-251 | Reactivating a cancelled booking that overlaps an Active one is accepted, and the table then has a double booking. |
| BookingController.UpdateWritesUncheckedStatus | src/controllers/bookingController.js:206-210 | updateBooking stores a status outside the enumeration ("Paid"). |
| BookingController.PastStartRefusedOnCreateOnly | src/controllers/bookingController.js:53-63 | A start before today is refused by create and accepted by update. |
| BookingController.BoundaryCases | src/controllers/bookingController.js:12-16 | Back-to-back bookings are accepted; partial and nested overlaps are refused; cancelled bookings are ignored. |
| BookingController.BookingTable.Create | src/controllers/bookingController.js:72-78 | On success one booking is added under a fresh id and nothing else changes. On failure nothing is written. The invariant is kept. |
| BookingController.BookingTable.Update | src/controllers/bookingController.js:206-216 | The record is replaced exactly when `CheckUpdate` accepts. The invariant is kept. |
| BookingController.BookingTable.UpdateStatus | src/controllers/bookingController.js:247-257 | Only the status of the record changes. The invariant is kept unless the new status is Active. |
| BookingController.BookingTable.Delete | src/controllers/bookingController.js:280-282 | Only that record is removed. The invariant is kept. |
| QuickActions.StatusesOutsideBookingEnumeration | src/routes/quickActionsRoutes.js:141-149 | The lower-case statuses of these routes are not in the booking schema's enumeration. |
| QuickActions.ClosedClausesAreClosedOverlap | src/routes/quickActionsRoutes.js:57-70 | For ordered intervals the three inclusive clauses are closed-interval overlap. |
| QuickActions.AvailableVehicles | src/routes/quickActionsRoutes.js:45-79 | A missing date is 400, and success needs both dates to parse. The result is exactly the Available vehicles that no active or confirmed booking blocks. |
| QuickActions.AvailabilityIsClosedOverlap | src/routes/quickActionsRoutes.js:56-79 | For an ordered range and stored bookings whose intervals are ordered, a vehicle is listed exactly when it is Available and no holding booking of it overlaps the closed range. |
| QuickActions.TouchingRangesBlock | src/routes/quickActionsRoutes.js:58-61 | A booking ending on the requested start day blocks, unlike under the booking controller's rule. |
| QuickActions.EndpointClausesMissOnlyEnclosed | src/routes/quickActionsRoutes.js:115-124 | The two clauses of /add-booking are closed overlap minus the bookings strictly inside the request. |
| QuickActions.CeilDays | src/routes/quickActionsRoutes.js:137 | The day count is the least whole number of days covering the duration. |
| QuickActions.CheckAdd | src/routes/quickActionsRoutes.js:104-149 | Missing fields refuse. Success holds exactly when no holding booking contains start or end. The written booking is `confirmed`, with rate × days and the given ids and dates. |
| QuickActions.AddAcceptsEnclosingRequest | src/routes/quickActionsRoutes.js:112-132 | A request enclosing a confirmed booking is accepted although the ranges overlap. |
| QuickActions.AddRefusesTouchingStart | src/routes/quickActionsRoutes.js:116-119 | A request starting on an existing booking's end is refused. |
| QuickActions.AmountRoundsUp | src/routes/quickActionsRoutes.js:137-138 | A day and a half is charged as two days, and exactly one day as one. |
| QuickActions.ReturnedRecord | src/routes/quickActionsRoutes.js:196-201 | The returned booking is completed, with end date now. Notes, damage report and mileage are replaced only when given. The rest is kept. |
| QuickActions.PaymentReminder | src/routes/quickActionsRoutes.js:285-314 | An absent booking is 404 and a completed one 400. Success holds exactly for a non-completed booking whose client exists. It carries the amount, the start as due date, and the given or default message. |
| QuickActions.ReturnIsFinal | src/routes/quickActionsRoutes.js:189-203 | After a return the booking is not active, is refused a reminder, and no longer blocks its vehicle. |
| QuickActions.Summarize | src/routes/quickActionsRoutes.js:26-32 | The count is the number of bookings found, the revenue is `Revenue` and the three status counts are `CountStatus` of 'active', 'pending' and 'completed'; together the counts stay within the number found. |
| QuickActions.SummaryOfOne | src/routes/quickActionsRoutes.js:26-32 | The summary of one booking: count 1, its amount or 0 when it has none, and 1 exactly in the count of its own status. |
| QuickActions.SummarizeAppend | src/routes/quickActionsRoutes.js:26-32 | The summary of two batches is the field-wise sum of their summaries. With `SummaryOfOne`, the summary is the route's reduce and three filters. |
| QuickActions.CountStatusAppend | src/routes/quickActionsRoutes.js:29-31 | A status count is additive over concatenation, as a `filter(...).length` is. |
| QuickActions.CountsBounded | src/routes/quickActionsRoutes.js:29-31 | The active, pending and completed counts sum to at most the number found. |
| QuickActions.RevenueAppend | src/routes/quickActionsRoutes.js:28 | Revenue is additive over concatenation. |
| QuickActions.RevenueNonNegative | src/routes/quickActionsRoutes.js:28 | Without negative amounts the revenue is not negative; when no booking has an amount the revenue is 0, as `total_amount || 0` gives. |
| QuickActions.QuickDesk.AddBooking | src/routes/quickActionsRoutes.js:141-154 | On success the booking is saved under a fresh id and the vehicle, if it exists, becomes Booked. On failure nothing changes. |
| QuickActions.QuickDesk.MarkReturned | src/routes/quickActionsRoutes.js:179-209 | A malformed id is 500, an absent booking 404 and a non-active one 400, all writing nothing. Otherwise the booking becomes `ReturnedRecord` and is saved, and the vehicle becomes Available. When the vehicle is gone the save stays and the request fails with 500. |
| ClientModel.ParseStatusIsInverse | src/models/Client.js:42-47 | The enumeration accepts exactly ACTIVE and SUSPENDED. |
| ClientModel.CastKeyIsNormal | src/models/Client.js:11-17 | A stored id/passport or licence has no surrounding whitespace and no lower-case letter. |
| Common.TrimUpperIdempotent | src/models/Client.js:35-41 | Storing a stored key again through the `trim` and `uppercase` setters changes nothing. |
| ClientModel.PhoneExamples | src/models/Client.js:18-24 | A padded international number is accepted. A number with a letter, or a blank one, is refused. |
| ClientModel.FullNameMeasuredTrimmed | src/models/Client.js:5-10 | The name length is measured after trimming. |
| ClientModel.MapSaveErrorPassesOthers | src/models/Client.js:74-76 | Errors other than a duplicate key pass through unchanged. |
| ClientModel.MapSaveErrorMessages | src/models/Client.js:56-73 | A duplicate key on idOrPassport, phone or licenseNumber gets its own message. Any other first key gets "Duplicate entry". |
| ClientController.PaddedIdNormalises | src/controllers/clientController.js:17 | The padded id " ab1 " is looked for as "AB1", while its upper-cased form keeps the spaces. |
| ClientController.DuplicateMessageNamesNoField | src/controllers/clientController.js:15-31 | As written, a client the duplicate query finds through a padded id gets a message that names no field. |
| ClientController.ReportedField | src/controllers/clientController.js:24-31 | Comparing with the normalised query values, the message names the first of id/passport, phone and licence that the found client holds. |
| ClientController.NewClient | src/controllers/clientController.js:36-43 | The new client has name, phone, citizenship and address trimmed, id and licence trimmed and upper-cased, and status ACTIVE. |
| ClientController.NewClientKeysFresh | src/controllers/clientController.js:15-43 | A client the duplicate query does not match shares no key with a stored client. |
| ClientController.UpdateRefusesOwnPaddedPhone | src/controllers/clientController.js:127-129 | As written, resubmitting one's own phone with spaces is refused as a duplicate of oneself. |
| ClientController.UpdateConflictIsOtherHolder | src/controllers/clientController.js:122-135 | A key is refused only when another client holds it. With unique keys, every key another client holds is refused. |
| ClientController.UpdateAcceptsOwnKeys | src/controllers/clientController.js:122-142 | As written, resubmitting one's own keys as stored (id/passport and licence in any case, the phone verbatim) is accepted, and the merged record keeps those keys. |
| ClientController.CorrectedAcceptsOwnKeys | src/controllers/clientController.js:122-135 | Under the corrected checks of the first Findings row, one's own keys are accepted in any padding or case. |
| ClientController.AcceptedAsWrittenIsAcceptedCorrected | src/controllers/clientController.js:122-135 | Every update the source's checks accept, the corrected checks accept too. |
| ClientController.UpdateAcceptsOwnPaddedPhone | src/controllers/clientController.js:127-129 | The padded own phone of the counterexample is accepted by the corrected checks. |
| ClientController.MergedKeys | src/controllers/clientController.js:137-142 | Each supplied key is stored as the uniqueness check looked for it. A key not supplied is kept. |
| ClientController.MergedIsNormalised | src/controllers/clientController.js:137-144 | The merge keeps a normalised record normalised and does not change its status. |
| ClientController.MergeEmptyIsIdentity | src/controllers/clientController.js:137-142 | An empty update changes nothing. |
| ClientController.MergeOwnValuesIsIdentity | src/controllers/clientController.js:137-142 | Resubmitting every stored field changes nothing. |
| ClientController.UpdatePreservesUniqueKeys | src/controllers/clientController.js:122-144 | A merge the source's checks as written accept, and the validators pass, keeps id/passport, phone and licence unique when the stored record is normalised. |
| ClientController.CorrectedUpdatePreservesUniqueKeys | src/controllers/clientController.js:122-144 | The same for a merge the corrected checks accept. |
| ClientController.UpdateOutcome | src/controllers/clientController.js:116-144 | A malformed id is 500 and an absent client 404. Then the first key the checks as written refuse is 400, in the order id/passport, phone, licence. Success holds exactly for an existing client those checks accept with a valid merged record; the result is the merged record. |
| ClientController.ClientsByStatus | src/controllers/clientController.js:219-228 | A non-empty filter outside the enumeration is refused. No filter lists every client. A filter lists exactly the clients with that status. |
| ClientController.StatusFiltersPartition | src/controllers/clientController.js:226-228 | The ACTIVE and SUSPENDED lists are disjoint and together list every client. |
| ClientController.ClientRegistry.AddClient | src/controllers/clientController.js:8-43 | Missing fields are 400. A match is 400 with a message naming the first field the found client holds as the upper-cased id/passport, trimmed phone or upper-cased licence, or no field. Otherwise the normalised client is added under a fresh id and keys stay unique. |
| ClientController.AssignFields | src/controllers/clientController.js:137-142 | The six assignments on the loaded document, in the source's order, give the record `Merged` describes. |
| ClientController.ExistsMessage | src/controllers/clientController.js:24-31 | The message is the prefix followed by the phrase of the field the as-written comparisons name, or by nothing. |
| ClientController.ClientRegistry.UpdateClient | src/controllers/clientController.js:116-144 | The six assignments produce `Merged`; the outcome is `UpdateOutcome`, on the checks as written; keys stay unique and records stay normalised. |
| ClientController.ClientRegistry.UpdateClientStatus | src/controllers/clientController.js:179-196 | The status is checked first (400), then a malformed id (500) and an absent client (404). Only the status changes. |
| ClientController.ClientRegistry.DeleteClient | src/controllers/clientController.js:162-165 | Only that client is removed. An absent one is 404. |
| VehicleModel.ParseStatusIsInverse | src/models/Vehicle.js:36-41 | The enumeration accepts exactly Available, Booked and Maintenance. |
| VehicleModel.TimeTextMatches | src/models/Vehicle.js:45-48 | Every time of day written H:MM or HH:MM matches the pattern. |
| VehicleModel.MatchesTimeIsTimeText | src/models/Vehicle.js:52-55 | Every matching string is a time of day with hour 0–23 and minutes 0–59. |
| VehicleModel.TimePatternIsTimeOfDay | src/models/Vehicle.js:45-55 | The pattern accepts exactly the formatted times of day. |
| VehicleModel.TimeExamples | src/models/Vehicle.js:47 | "9:05", "09:05", "23:59" and "0:00" match. "24:00", "12:60", "9:5" and "123:00" do not. |
| VehicleModel.PlateIgnoresCase | src/models/Vehicle.js:28-35 | The stored plate does not depend on the case of the input. |
| VehicleModel.PlateLowerCaseAccepted | src/models/Vehicle.js:32-34 | A lower-case plate is stored upper-case and accepted. |
| VehicleModel.PlateHyphenAccepted | src/models/Vehicle.js:34 | Hyphens are accepted. |
| VehicleModel.PlateUnderscoreRefused | src/models/Vehicle.js:34 | Other symbols are refused. |
| VehicleModel.PlateBlankRefused | src/models/Vehicle.js:30-34 | A blank plate trims to "" and is refused. |
| VehicleModel.CastPlateIdempotent | src/models/Vehicle.js:32-33 | Storing a stored plate again changes nothing. |
| VehicleModel.MapSaveErrorCases | src/models/Vehicle.js:69-75 | A duplicate key becomes "License plate already exists". Other errors pass through. |
| VehicleController.NewVehicle | src/controllers/vehicleController.js:55-67 | The new vehicle's fields are as follows. Make and model are trimmed. The plate is trimmed and upper-cased. Color and times are trimmed when given. Dates are stored when given. Year, rate and status are as supplied. |
| VehicleController.AddOutcome | src/controllers/vehicleController.js:21-67 | The checks run in order: missing field, plate taken, dateOut after dateIn, bad status, each 400. Success holds exactly when none applies, the dates parse and the record is valid. Its plate is stored nowhere else. |
| VehicleController.BlankTimeAccepted | src/controllers/vehicleController.js:63 | A blank timeOut is trimmed to "" and stored; the verdict is the one without a timeOut, since the `match` validator (src/models/Vehicle.js:45-48) passes an empty string. |
| VehicleController.FreeVehicleRefusedAsMissing | src/controllers/vehicleController.js:21 | A daily rate of 0 is refused as missing although the schema accepts it. |
| VehicleController.PatchPreservesDocumentValid | src/controllers/vehicleController.js:218-222 | A patch accepted by the update validators keeps a valid vehicle valid. |
| VehicleController.EmptyPatchIsIdentity | src/controllers/vehicleController.js:218-222 | An empty patch changes nothing. |
| VehicleController.UpdateOutcome | src/controllers/vehicleController.js:202-229 | A malformed id is 500. A plate of another vehicle is 400, even when the target is absent. A refused patch is 500, then an absent vehicle 404. Success holds exactly when none applies, and gives the patched record. |
| VehicleController.OwnPlateAccepted | src/controllers/vehicleController.js:203-206 | Keeping one's own plate, in any case or padding, is not refused. |
| VehicleController.EmptyTimePatchAccepted | src/controllers/vehicleController.js:218-222 | A patch setting timeOut to "" is accepted by the update validators and stored. |
| VehicleController.UpdateMayReverseDates | src/controllers/vehicleController.js:218-222 | updateVehicle accepts dateOut after dateIn, which addVehicle refuses. |
| VehicleController.AddPreservesUniquePlates | src/controllers/vehicleController.js:29-38 | An accepted addition keeps plates unique. |
| VehicleController.UpdatePreservesUniquePlates | src/controllers/vehicleController.js:202-216 | An accepted patch keeps plates unique. |
| VehicleController.Garage.AddVehicle | src/controllers/vehicleController.js:55-67 | On success the vehicle is added under a fresh id. On failure nothing changes. Plates stay unique and records valid. |
| VehicleController.Garage.UpdateVehicleStatus | src/controllers/vehicleController.js:111-129 | The status is checked first (400), then a malformed id (500) and an absent vehicle (404). Only the status changes. |
| VehicleController.Garage.UpdateVehicle | src/controllers/vehicleController.js:202-229 | The plate is upper-cased in the request before it is sent. The outcome is `UpdateOutcome`, and plates stay unique. |
| VehicleController.Garage.DeleteVehicle | src/controllers/vehicleController.js:250-262 | Only that vehicle is removed; bookings are not touched. An absent one is 404. |

## Left out

- BookingController.BookingTable.UpdateStatus: keeps the no-double-booking invariant only when the new status is not Active. The source runs no conflict check there, and `ReactivationBreaksNoDoubleBooking` shows a reactivation that breaks it.
- Concurrency: every handler is one atomic step. The check-then-write race between `hasConflict` and the write, and the parallel lookups, are not modelled.
- Date parsing and formatting (`new Date`, `isNaN`, `toISOString`) are replaced by `DateInput` and integer instants. A `null` request date, which `new Date(null)` reads as instant 0, is not distinguished from an absent one.
- Request values that are not strings (objects for client or vehicle ids, numbers for text fields) are not modelled. A client or vehicle id in a request body is a well-formed id, stored or not, or absent. A malformed one, which the driver's cast error turns into a 500, is not modelled.
- `populate`, `lean`, `select` and `sort` change only what is displayed, or in which order. Which of several matching records a `findOne` returns is not modelled; `AddClient` reports some matching client.
- The quick-action routes write `start_date`, `end_date`, `total_amount`, `daily_rate`, `notes`, `damageReport` and `returnMileage`, which the booking schema does not declare, and lower-case statuses outside its enumeration. Under the strict schema those saves would be refused. The model keeps these routes on their own record shape, as written, apart from the booking schema.
- The `mileage` that /mark-returned writes to the vehicle is not a path of the vehicle schema and is dropped, so it is not modelled.
- The /today-bookings query for bookings starting today is a database filter over the clock. The model takes the bookings found as input and models only the summary computed from them.
- The invoice route (floating-point tax, clock-based invoice number), the analytics routes, authentication, connection handling and routing are not part of this model.
- Sending the payment reminder (a log line) is not modelled; the reminder is the value returned.
- `toUpperCase` is modelled on ASCII letters only. String lengths are counted in characters, not UTF-16 code units.
- Floating point: `parseFloat(dailyRate)`, `parseInt(year)` and the amount are whole numbers. A missing daily rate makes the quick-action amount not a number, which is modelled as an absent amount.
- The 500 answers after a failed save or a thrown error are modelled as `ServerError` without their messages. The duplicate-key paths of the add handlers cannot be reached in the model, because the duplicate queries find every stored key first.
- Clearing a field with `null` in updateVehicle is not modelled. A patch field is either supplied or absent.
- An unparseable date in /available-vehicles and /add-booking is modelled as a server error (500). `start_date` and `end_date` are not booking schema paths, so nothing casts them; what the driver does with an invalid date in such a filter is an assumption of the model.
- updateBooking passes `status: undefined` when no status is sent. The model assumes undefined keys are dropped from the update, as Mongoose does by default, so `CheckUpdate` keeps the stored status.
- AvailabilityIsClosedOverlap: holds for ordered stored intervals only. /add-booking can store a reversed interval, and /mark-returned can set `end_date` to a time before `start_date`; for such bookings only the definition of `AvailableVehicles` applies.

## Findings

| source | as written | input that shows it | evidently intended | confidence | as-written member | corrected member |
|---|---|---|---|---|---|---|
| src/controllers/clientController.js:127-129 | The request phone is compared untrimmed with the stored phone, then the trimmed phone is looked up without excluding the client itself. | Stored client with phone "0712" updates with phone " 0712 "; the lookup finds the client itself and answers "Phone number already exists". The id and licence checks behave alike for padded values. | Refuse only a normalised key that another client holds. | not executed | ClientController.UpdateRefusesOwnPaddedPhone | ClientController.UpdateConflictIsOtherHolder |
| src/controllers/clientController.js:25-31 | The found client is compared with the upper-cased but untrimmed request id and licence, while the query matched their trimmed form. | Stored id "AB1"; request id " ab1 " with a new phone and licence: the query finds the client, but the message is "Client already exists with " naming no field. | Name the first field that matched, comparing as the query did. | not executed | ClientController.DuplicateMessageNamesNoField | ClientController.ReportedField |

The handlers (`ClientController.UpdateOutcome`, `ClientController.ClientRegistry.UpdateClient`, `ClientController.ClientRegistry.AddClient`) follow the code as written. The corrected definitions stand beside them, and `AcceptedAsWrittenIsAcceptedCorrected` shows that the corrected update checks accept everything the written ones do.

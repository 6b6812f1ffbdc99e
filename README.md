# Sports facility booking: the booking core in Dafny

This project models the booking core of the sports-facility-booking
backend:

- the interval and time-of-day helpers (`backend/utils/timeUtils.js`);
- the availability engine that decides whether a court, some equipment and
  an optional coach are free (`backend/services/availabilityService.js`);
- the pricing engine that stacks pricing-rule multipliers on the court's
  base price and adds equipment, coach and 18% tax
  (`backend/services/pricingService.js`);
- the booking coordinator that creates and cancels bookings and keeps the
  equipment stock (`backend/services/bookingService.js`);
- the equipment schema and its pre-save clamp (`backend/models/Equipment.js`).

Modules:

| module | file | contents |
|---|---|---|
| `Wrappers` | `wrappers.dfy` | `Option`, `Result` |
| `JsStrings` | `js_strings.dfy` | the JavaScript string built-ins the core uses: `split`, `join`, `Number`, number printing, string `<` |
| `TimeUtils` | `time_utils.dfy` | overlap, duration, "HH:MM" rendering and parsing, the `Calendar` |
| `Models` | `models.dfy` | courts, coaches, pricing rules, bookings, requests |
| `EquipmentModel` | `equipment.dfy` | equipment, its schema bounds, the pre-save hook and the document it runs on |
| `Availability` | `availability.dfy` | the court, equipment, coach and combined checks |
| `Pricing` | `pricing.dfy` | rule applicability, ranking, stacking, charges, the quote |
| `BookingService` | `booking_service.dfy` | create and cancel as transitions, the `BookingStore` class, the stock lemmas |

How the model represents the system:

- Instants are integers counting milliseconds. Prices and multipliers are
  exact reals.
- The store is in memory:
  - courts, equipment and coaches are maps from ids (natural numbers);
  - pricing rules are a sequence in store order;
  - bookings are a sequence, and a booking's id is its position.
- The server renders an instant in three ways, and all three are
  abstract functions of the instant held in a `Calendar`:
  - the local weekday (`getDay`);
  - the local minute of the day (`getHours`/`getMinutes`, and also
    `toTimeString().slice(0, 5)`);
  - the UTC calendar date (`toISOString().split('T')[0]`), as a day number.
- Each pure decision is a function, and each lemma about it states what the
  decision means. Each loop of the source is a method proved equal to
  that function. `BookingStore` holds the collections and updates
  `bookings` and `equipment` in place.
- Several quirks of the source are reproduced and proved, not fixed:
  - stock is counted twice;
  - only the first coach window of a weekday is consulted;
  - only the first matching equipment line of a booking is summed;
  - the conflict query's three clauses report a conflict for a zero-length
    request at a booking's endpoint;
  - a request naming an item twice can overdraw it;
  - the `$inc` updates bypass the pre-save clamp;
  - a completed booking can be cancelled.

## Model

| member | source | states |
|---|---|---|
| `JsStrings.Split` | backend/utils/timeUtils.js:46 | `split` yields at least one piece and no piece contains the separator |
| `JsStrings.JoinSplit` | backend/services/bookingService.js:41 | joining the pieces of a split with the same separator gives back the string |
| `JsStrings.ToNumber` | backend/utils/timeUtils.js:46 | `Number` gives a value exactly for digit strings (the empty string reads as 0); anything else is NaN |
| `JsStrings.NatToStringRoundTrip` | backend/services/availabilityService.js:120 | reading back a printed natural number gives the number |
| `JsStrings.StrLtStrict` | backend/services/pricingService.js:142 | string `<` is irreflexive and asymmetric |
| `JsStrings.StrLtTotal` | backend/services/pricingService.js:142 | string `<` is total on distinct strings |
| `TimeUtils.OverlapIffSharedInstant` | backend/utils/timeUtils.js:14-23 | for non-empty ranges, `checkTimeOverlap` holds iff the half-open ranges share an instant |
| `TimeUtils.OverlapSymmetric` | backend/utils/timeUtils.js:22 | the overlap test is symmetric |
| `TimeUtils.TouchingNeverOverlap` | backend/utils/timeUtils.js:22 | `[a,b)` and `[b,c)` never overlap, in either order |
| `TimeUtils.ValidIffPositiveDuration` | backend/utils/timeUtils.js:84-86 | `validateTimeRange` holds iff the duration in hours is positive |
| `TimeUtils.DurationsAdd` | backend/utils/timeUtils.js:31-36 | durations of consecutive ranges add up |
| `TimeUtils.Pad2` | backend/utils/timeUtils.js:73-74 | `padStart(2, '0')` gives two digits |
| `TimeUtils.TimeString` | backend/utils/timeUtils.js:71-76 | the rendering is 5 characters, two digits, ':' and two digits |
| `TimeUtils.Pad2Value` | backend/utils/timeUtils.js:73-74 | `Number` of a padded number is the number |
| `TimeUtils.SplitTimeString` | backend/utils/timeUtils.js:46 | splitting a rendered time on ':' gives the padded hour and minute |
| `TimeUtils.MinutesOfTimeString` | backend/utils/timeUtils.js:46-50 | parsing a rendered time as `isTimeInRange` does recovers the minute of the day |
| `TimeUtils.TimeInRangeOfTimeStrings` | backend/utils/timeUtils.js:45-55 | on rendered times, `isTimeInRange` is `start <= t < end` on minutes |
| `TimeUtils.StrLtCommonPrefix` | backend/services/availabilityService.js:181 | a common prefix does not change the string order |
| `TimeUtils.Pad2Order` | backend/services/availabilityService.js:181 | padded numbers compare as strings as the numbers compare |
| `TimeUtils.TimeStringOrder` | backend/services/availabilityService.js:175-181 | comparing rendered "HH:MM" strings compares the minutes they stand for |
| `EquipmentModel.PreSave` | backend/models/Equipment.js:48-53 | after the hook `availableQuantity <= totalQuantity`; an in-range record is untouched; only `availableQuantity` can change |
| `EquipmentModel.PreSaveIdempotent` | backend/models/Equipment.js:48-53 | running the hook twice is running it once |
| `EquipmentModel.PreSaveKeepsSchema` | backend/models/Equipment.js:20-53 | a valid record stays valid, with the smaller of the two quantities available |
| `EquipmentModel.EquipmentDocument.PreSaveHook` | backend/models/Equipment.js:48-53 | assigning the field in place leaves the document equal to `PreSave` of the old one |
| `Availability.QueryMatchesOverlap` | backend/services/availabilityService.js:31-35 | for non-empty intervals the three `$or` clauses equal `bs < e && be > s` |
| `Availability.ZeroLengthRequestDiffers` | backend/services/availabilityService.js:31-35 | for a zero-length request at `t` the clauses report a conflict and the half-open test does not, exactly when `t` is an endpoint of the booking |
| `Availability.CourtAvailableIff` | backend/services/availabilityService.js:15-52 | a court is available iff it exists, is active and no confirmed booking of it (other than the excluded one) overlaps; the missing and inactive reasons come before the bookings are consulted |
| `Availability.FirstLineIndex` | backend/services/availabilityService.js:108 | `find` returns the first line for the item, or none |
| `Availability.TotalBookedNonNegative` | backend/services/availabilityService.js:107-110 | with positive stored quantities, `totalBooked` is at least 0 |
| `Availability.UnavailableItemsEmptyIff` | backend/services/availabilityService.js:68-123 | no item is reported iff every request can be supplied; at most one report per request |
| `Availability.ItemReportCases` | backend/services/availabilityService.js:71-121 | a request gets no report iff it can be supplied; otherwise "Equipment not found", then "Equipment is currently inactive" with the name, then "Only N available" with the quantity asked and the stock left N |
| `Availability.FailingIndicesSpec` | backend/services/availabilityService.js:68-123 | the failing positions are listed in increasing order, and a position is listed iff its request cannot be supplied |
| `Availability.UnavailableItemsOfFailing` | backend/services/availabilityService.js:68-123 | `unavailableItems` has one entry per failing request, in request order, each that request's report |
| `Availability.EquipmentAvailableIff` | backend/services/availabilityService.js:62-133 | the equipment check passes iff each item exists, is active and `availableQuantity - totalBooked >= requested`; it passes iff it lists no item; otherwise it says "Some equipment items are not available" and carries the reports of the failing requests |
| `Availability.CheckEquipmentAvailability` | backend/services/availabilityService.js:62-138 | the loop returns exactly the equipment report |
| `Availability.FirstWindowIndex` | backend/services/availabilityService.js:165 | `find` returns the first window for the weekday, or none |
| `Availability.FitsWindowInclusive` | backend/services/availabilityService.js:175-181 | with "HH:MM" bounds, fitting a window is `lo <= start` and `end <= hi` on minutes, both bounds inclusive |
| `Availability.CoachAvailableIff` | backend/services/availabilityService.js:143-213 | no coach is available; a coach is available iff it exists, is active, its first window for the weekday exists and fits, and no conflicting booking has it |
| `Availability.CoachWindowRefusal` | backend/services/availabilityService.js:165-186 | an existing, active coach whose first window for the weekday does not hold the booking is refused with "Coach is only available from <start> to <end> on this day", whatever the bookings |
| `Availability.EndsAfterWindow` | backend/services/availabilityService.js:176-181 | a booking ending after the window's closing time fails the window test |
| `Availability.OnlyFirstWindowConsulted` | backend/services/availabilityService.js:165 | a coach with a second Monday window 14:00-18:00 is refused for 15:00-16:00 |
| `Availability.CoachOutsideWindowRejected` | backend/services/availabilityService.js:181-186 | a booking running past the window's end is refused with the window in the reason |
| `Availability.MultiAvailableIff` | backend/services/availabilityService.js:223-266 | the combined result is available iff `errors` is empty iff the court, every equipment item and the coach pass |
| `Availability.RecordFailure` | backend/services/availabilityService.js:236-264 | a failing check clears `available` and pushes its reason; a passing one leaves the record alone |
| `Availability.CheckMultiResourceAvailability` | backend/services/availabilityService.js:223-271 | the step-by-step record equals the combined report, with errors in court, equipment, coach order |
| `Pricing.IsRuleApplicable` | backend/services/pricingService.js:118-174 | the early-exit loops decide exactly `RuleApplies`: every non-empty facet matches the start |
| `Pricing.UnrestrictedRuleApplies` | backend/services/pricingService.js:118-174 | a rule with no conditions applies to every booking |
| `Pricing.TimeFacetInclusive` | backend/services/pricingService.js:137-151 | one time range matches iff the start's minute lies between its bounds, both included |
| `Pricing.ActiveRules` | backend/services/pricingService.js:37 | only active rules are returned |
| `Pricing.ActiveRulesKeepsEvery` | backend/services/pricingService.js:37 | every active rule is returned |
| `Pricing.InsertByPriorityPermutes` | backend/services/pricingService.js:37 | inserting a rule adds exactly that rule |
| `Pricing.InsertByPrioritySorted` | backend/services/pricingService.js:37 | inserting keeps the priority order |
| `Pricing.InsertByPriorityBounded` | backend/services/pricingService.js:37 | inserting a rule no higher than a bound keeps every priority within the bound |
| `Pricing.SortByPriorityCorrect` | backend/services/pricingService.js:37 | `sort({priority: -1})` is a permutation, highest priority first |
| `Pricing.AllActiveKept` | backend/services/pricingService.js:37 | when all rules are active, all are returned in order |
| `Pricing.SeedSorted` | backend/utils/seedData.js:173-233 | the active seed rules ranked by priority are peak, early bird, weekend, indoor |
| `Pricing.InsertLowest` | backend/services/pricingService.js:37 | a rule of lower priority than all ranked ones goes last |
| `Pricing.SortKeepsRanked` | backend/services/pricingService.js:37 | rules already in priority order are left as they are |
| `Pricing.Filter` | backend/services/pricingService.js:43-44 | every rule kept satisfies the test |
| `Pricing.Applicable` | backend/services/pricingService.js:43-44 | every rule kept applies to the booking |
| `Pricing.FilterKeepsEvery` | backend/services/pricingService.js:43-44 | every rule that passes the test is kept |
| `Pricing.ApplicableKeepsEvery` | backend/services/pricingService.js:43-44 | every rule that applies to the booking is kept |
| `Pricing.ProductSnoc` | backend/services/pricingService.js:45 | one more rule multiplies the product by its multiplier |
| `Pricing.FilterStepKept` | backend/services/pricingService.js:43-51 | a kept last rule is appended and multiplies the product |
| `Pricing.FilterStepDropped` | backend/services/pricingService.js:43-51 | a dropped last rule changes nothing |
| `Pricing.FilterSnoc` | backend/services/pricingService.js:40-52 | filtering a list with one more rule appends that rule exactly when it passes |
| `Pricing.FilterDropsSecond` | backend/services/pricingService.js:40-52 | of four rules, dropping only the second leaves the other three in order |
| `Pricing.FilterAllKept` | backend/services/pricingService.js:43-51 | a test every rule passes keeps the rules unchanged |
| `Pricing.RemoveMatching` | backend/services/pricingService.js:43-45 | proof step of `FilterPermutation`: removing the element that matches the last of one permutation from the other leaves permutations |
| `Pricing.FilterRemoveKept` | backend/services/pricingService.js:43-45 | the filtered list with a kept rule is the list without it plus that rule, and its product is the other's times the rule's multiplier |
| `Pricing.FilterRemoveKeptProduct` | backend/services/pricingService.js:40-45 | the product over the filtered list with a kept rule is the product without it times its multiplier |
| `Pricing.FilterRemoveKeptProductStep` | backend/services/pricingService.js:40-45 | proof step of `FilterRemoveKeptProduct`: its inductive step for a rule before the last, given the shorter list's case |
| `Pricing.KeptBesideKept` | backend/services/pricingService.js:40-45 | proof step of `FilterRemoveKeptProductStep`: a kept last rule multiplies both products alike |
| `Pricing.FilterRemoveKeptMultiset` | backend/services/pricingService.js:40-45 | the filtered multiset with a kept rule is the one without it plus that rule |
| `Pricing.FilterRemoveDropped` | backend/services/pricingService.js:43-45 | removing a dropped rule leaves the filtered list unchanged |
| `Pricing.FilterPermutation` | backend/services/pricingService.js:43-45 | permuted inputs give the same filtered multiset and the same product |
| `Pricing.StackingOrderIndependent` | backend/services/pricingService.js:37-52 | ranking the rules does not change which apply or the product of their multipliers |
| `Pricing.RankedApplicable` | backend/services/pricingService.js:37-52 | the applicable ranked rules are in priority order, active and applicable, include every active applicable rule, and are the store-order ones as a multiset |
| `Pricing.FilterIsSubsequence` | backend/services/pricingService.js:43-51 | the filtered rules come from the input and keep its priority order |
| `Pricing.Describe` | backend/services/pricingService.js:46-50 | one `appliedRules` entry per rule, with its name, multiplier and description |
| `Pricing.AppliedProductOfDescribe` | backend/services/pricingService.js:45-50 | the product of the listed multipliers is the product of the rules' multipliers |
| `Pricing.MissingEquipmentSkipped` | backend/services/pricingService.js:57-72 | items that do not exist are skipped: price and details are those of the existing items alone, one detail per existing item |
| `Pricing.ExistingItems` | backend/services/pricingService.js:58-59 | the existing items are at most the requested ones, and each exists |
| `Pricing.AllEquipmentMissing` | backend/services/pricingService.js:57-72 | when no requested item exists the equipment price is 0 and there are no details |
| `Pricing.QuoteFailures` | backend/services/pricingService.js:18-32 | the quote fails iff the duration is not positive ("Invalid booking duration") or the court is missing ("Court not found"), in that order |
| `Pricing.QuoteArithmetic` | backend/services/pricingService.js:22-93 | base = basePrice × duration, court price = base × multiplier, the subtotal sums, tax = 0.18 × subtotal, total = 1.18 × subtotal, coach price = rate × duration or 0 |
| `Pricing.QuoteCoachDetails` | backend/services/pricingService.js:75-88 | a successful quote has coach details exactly when the coach was requested and exists, with its name and hourly price |
| `Pricing.QuoteRules` | backend/services/pricingService.js:37-54 | `appliedRules` describes the active applicable rules, highest priority first: as a multiset exactly those, each of them listed; the multiplier is their product, 1 with none |
| `Pricing.QuoteOfLoopResults` | backend/services/pricingService.js:34-108 | the loops' multiplier over the ranked rules and their equipment sums assemble into the quote |
| `Pricing.ApplyPricingRules` | backend/services/pricingService.js:40-52 | the rule loop's multiplier is the product of the applicable rules' multipliers, and `appliedRules` describes them in order |
| `Pricing.PriceEquipment` | backend/services/pricingService.js:57-72 | the equipment loop's price and details are those of the existing items, in order |
| `Pricing.CalculateTotalPrice` | backend/services/pricingService.js:14-113 | with its two loops in `ApplyPricingRules` and `PriceEquipment`, it computes exactly the quote, failures included |
| `Pricing.GetPriceEstimate` | backend/services/pricingService.js:179-186 | the estimate is the quote the booking stores |
| `Pricing.SeedSaturdayEvening` | backend/services/pricingService.js:34-93 | the seed indoor court on a Saturday 18:00-20:00: multiplier 2.34, court price 234, tax 42.12, total 276.12, rules listed peak, weekend, indoor |
| `Pricing.SeedStoreOrder` | backend/utils/seedData.js:173-233 | in store order the peak, weekend and indoor seed rules apply and stack to 2.34 |
| `Pricing.SeedRanked` | backend/utils/seedData.js:173-233 | ranked, the early-bird rule is second and filtering leaves peak, weekend, indoor |
| `Pricing.SeedApplicability` | backend/utils/seedData.js:173-233 | on a Saturday at 18:00 at an indoor court, all seed rules but the early-bird one apply |
| `Pricing.PeakApplies` | backend/utils/seedData.js:173-189 | the peak rule applies at 18:00, its inclusive start |
| `Pricing.EarlyBirdDoesNotApply` | backend/utils/seedData.js:218-232 | the early-bird rule does not apply at 18:00 |
| `BookingService.DecrementedSpec` | backend/services/bookingService.js:97-105 | the decrements take each item's requested total off its stock and change nothing else |
| `BookingService.RestoredSpec` | backend/services/bookingService.js:176-184 | the increments add each item's booked total back and change nothing else |
| `BookingService.SnapshotSpec` | backend/services/bookingService.js:51-63 | one line per existing requested item, in order, with its current price; each existing item's booked total equals its requested total |
| `BookingService.SnapshotLines` | backend/services/bookingService.js:51-63 | at most one line per request entry, each for an existing item at its current price; one per entry, in order, when all exist |
| `BookingService.SnapshotQuantities` | backend/services/bookingService.js:51-63 | each existing item's booked total is its requested total |
| `BookingService.QtyRequestedDistinct` | backend/services/bookingService.js:97-105 | with distinct items, an item's requested total is its one entry's quantity, or 0 |
| `BookingService.CreateFailures` | backend/services/bookingService.js:36-130 | every failing create leaves bookings and stock unchanged; an availability failure reports the errors joined by ", "; other failures say "Failed to create booking" |
| `BookingService.CreatedOutcome` | backend/services/bookingService.js:36-105 | a create succeeds only when the check passes, the quote succeeds and the document is valid, and then appends it and decrements the stock |
| `BookingService.CreateWhenChecksPass` | backend/services/bookingService.js:36-105 | when the check, the quote and the validation pass, the create appends the document and decrements the stock |
| `BookingService.NewBookingFields` | backend/services/bookingService.js:50-91 | the document carries the request's user, court, times, customer and coach, all nine price fields of the quote, the price snapshot of the requested items, and the requested total of each existing item |
| `BookingService.CreateSucceeds` | backend/services/bookingService.js:45-105 | a successful create appends one confirmed booking with the request's user, court, times, customer and coach, all nine price fields of the quote, the price snapshot of the requested items and the coach price |
| `BookingService.CreateTakesStock` | backend/services/bookingService.js:97-105 | a successful create takes each existing item's requested total off its stock, keeps the same items and changes no other field |
| `BookingService.CreatePreservesInvariant` | backend/services/bookingService.js:26-94 | a create keeps ids, schema validity, non-empty intervals, and no double-booked court or coach |
| `BookingService.AppendPreservesInvariant` | backend/services/bookingService.js:94 | appending a valid, non-empty booking numbered next, that no confirmed booking of its court or coach overlaps, keeps the invariant |
| `BookingService.FreeCourtHasNoClash` | backend/services/availabilityService.js:15-52 | a court found available has no confirmed overlapping booking |
| `BookingService.FreeCoachHasNoClash` | backend/services/availabilityService.js:143-213 | a coach found available has no confirmed overlapping booking |
| `BookingService.DecrementOfSuppliableNonNegative` | backend/services/availabilityService.js:112-114 | decrementing distinct items that passed the check keeps stock non-negative |
| `BookingService.CreateKeepsStockNonNegative` | backend/services/bookingService.js:97-105 | with distinct request items, a successful create keeps every `availableQuantity >= 0` |
| `BookingService.FirstLineOfDistinct` | backend/services/availabilityService.js:108 | with distinct lines, `find` returns the line's own index |
| `BookingService.CreateCountsStockTwice` | backend/services/availabilityService.js:105-114 | after a create, an overlapping request for one of its items sees the booked quantity subtracted twice |
| `BookingService.SnapshotCountedTwice` | backend/services/availabilityService.js:105-114 | after the decrements and the new booking, an overlapping request sees the item's quantity taken off twice |
| `BookingService.CancelOutcomes` | backend/services/bookingService.js:144-186 | the guards fail in order (not found, not the owner, already cancelled) with state unchanged; success marks only that booking cancelled and adds each booked quantity back |
| `BookingService.CompletedBookingCanBeCancelled` | backend/services/bookingService.js:163 | a completed booking passes the guards |
| `BookingService.CancelPreservesInvariant` | backend/services/bookingService.js:171-173 | a cancel keeps the store invariant |
| `BookingService.RestoreUndoesDecrement` | backend/services/bookingService.js:97-184 | giving back the snapshot of a request undoes its decrements exactly |
| `BookingService.CreateThenCancelRestoresStock` | backend/services/bookingService.js:97-184 | cancelling the booking just created succeeds for its owner and restores every available quantity exactly |
| `BookingService.OutstandingAppend` | backend/services/bookingService.js:94 | a new booking adds its lines to the quantity bookings hold |
| `BookingService.OutstandingOfCancelled` | backend/services/bookingService.js:172 | cancelling a booking removes its lines from the quantity bookings hold |
| `BookingService.CreateConservesStock` | backend/services/bookingService.js:94-105 | a create keeps available plus held, item by item |
| `BookingService.CancelConservesStock` | backend/services/bookingService.js:172-184 | a cancel keeps available plus held, item by item |
| `BookingService.DuplicateRequestCanOverdraw` | backend/services/availabilityService.js:70-123 | three rackets and a request for two plus two: the create succeeds and leaves -1 |
| `BookingService.DuplicatePassesChecks` | backend/services/availabilityService.js:223-266 | with two entries of two rackets against three in stock, the combined check passes |
| `BookingService.DuplicateBookingValid` | backend/services/bookingService.js:66-94 | the document built for that request passes validation |
| `BookingService.DuplicateOverdraws` | backend/services/bookingService.js:97-105 | taking both entries off three rackets leaves -1 |
| `BookingService.RestoreMayExceedTotal` | backend/services/bookingService.js:178-182 | the increments bypass the clamp: stock 3 of 3 plus 2 returned is 5 of 3 |
| `BookingService.OnlyFirstLineCounted` | backend/services/availabilityService.js:107-110 | a booking holding an item on two lines, 1 and 2, counts as 1 in the check and holds 3 |
| `BookingService.BookingStore.constructor` | backend/services/bookingService.js:15-17 | an empty store over the catalogue satisfies the invariant |
| `BookingService.BookingStore.CreateBooking` | backend/services/bookingService.js:15-134 | the new bookings, stock and result are exactly `Create` of the old ones; the invariant is kept |
| `BookingService.BookingStore.PrepareBooking` | backend/services/bookingService.js:26-91 | a refusal is exactly the create's answer with nothing changed; a prepared document is the one the create appends before decrementing the stock |
| `BookingService.BookingStore.SnapshotPrices` | backend/services/bookingService.js:51-63 | the loop builds exactly the snapshot |
| `BookingService.BookingStore.TakeOutOfStock` | backend/services/bookingService.js:97-105 | the loop leaves the stock exactly decremented |
| `BookingService.BookingStore.CancelBooking` | backend/services/bookingService.js:139-197 | the new bookings, stock and result are exactly `Cancel` of the old ones; the invariant is kept |
| `BookingService.BookingStore.PutBackInStock` | backend/services/bookingService.js:176-184 | the loop leaves the stock exactly restored |
| `BookingService.BookingStore.SaveEquipment` | backend/models/Equipment.js:15-53 | a document is saved iff it passes the schema, and then as the hook leaves it; otherwise nothing changes |

## Left out

- Mongo sessions, transactions and concurrent requests. Create and cancel are
  sequential atomic steps, and every failure leaves the store as it was. The
  availability reads do not use the session, so concurrent creates could both
  pass the check; that is not modelled.
- The `populate` re-read after commit, console logging, and the thrown
  errors of the database layer: there is no database.
- `isInPast`: it reads the wall clock.
- `parseTime`, imported by backend/services/availabilityService.js:10: it is never defined or used.
- The HTTP layer: routes, controllers, middleware validation, CORS and status
  codes. The controller's required-field check is not modelled.
- The frontend, the admin CRUD, database configuration and the seed script.
  The seed values are used only as concrete lemma inputs.
- Floating point: prices are exact reals, so the worked example's 276.12 is
  exact. `Pricing.Mul` is plain multiplication.
- Time zones and `Date`: the weekday, local minute of the day and UTC date
  are abstract functions of the instant. The ISO date strings are compared
  as day numbers, which is their string order for four-digit years.
- `Pricing.CalculateTotalPrice`: `Quote` states the multiplier as the product
  over the active rules in store order. The loop multiplies in priority
  order, and the two are proved equal. Priority ties are broken by store
  order (a stable sort); the database does not promise that order.
- The status `'pending'` that the conflict queries accept: the booking schema
  does not admit it, so only confirmed bookings block.
- Strings are sequences of characters: there is no UTF-16, no `trim` on the
  customer fields and no `unique` index on equipment names.
- Ids are natural numbers: an invalid ObjectId cast, which throws in the
  source, cannot occur.
- Any numeric request value: quantities are integers, and `Number` of a
  string is modelled only on digit strings; every other string is NaN.
- `BookingService.Create`: a failed booking validation is reported with the
  error "Booking validation failed", not with the validator's full message.
- `BookingService.BookingStore.CancelBooking`: the save of the cancelled
  booking re-runs validation, which cannot fail under the store invariant,
  so that failure path is absent.
- The `$inc` updates on an id with no document do nothing, as
  `findByIdAndUpdate` does. Deleting equipment is not modelled.

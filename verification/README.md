# park-wise backend: slots, bookings, pricing and reviews in Dafny

This project models the server-side parking logic of the park-wise backend, an Express and
Mongoose service. It covers five parts:

- **The slot-based lot.** A parking lot document holds an array of slots. Its `totalSpots`,
  `availableSpots` and `availabilityByType` are derived from the slots, and a pre-save hook
  switches the lot between `full` and `active`. The admin and IoT controllers change one
  slot at a time: they update its status, push new slots and delete a slot. Freeing an
  occupied slot checks out its active booking and bills it.
- **Bookings on the whole-lot counter.** The legacy controllers keep a separate
  `availableSpots` number per lot and move it by one. This covers create-and-pay, a user's
  own cancellation, an admin's status change, the MoMo payment notification and the cron
  job that completes expired bookings. The booking record's own rules are in the booking
  schema: the status enum and its default, the non-negative price, `endTime` after
  `startTime`, the plate normalisation and the duration virtual.
- **Pricing.** `calculateBasePrice` bills every started hour. `estimatePrice` adds at most
  one surcharge, weekend first and then the evening peak. `calculateDynamicPrice` stacks a
  time factor, an occupancy factor and a quality factor. Both round to the nearest 1000.
- **Reviews.** A user may review a lot only after a completed booking there, and only once.
  After every create or delete, the lot's `numReviews` and its `rating` are recomputed from
  the stored reviews: the rating is the average, rounded to one decimal.
- **Two TypeScript schema variants.** Each has a save hook that recounts from its own
  slot or spot array: a `statistics` block in one and a cached `availableSpots` in the
  other.

Documents that the controllers change in place are classes:

- `ParkingLot.ParkingLotDoc`, for the slot-based lot.
- `Booking.BookingTable`, for the booking collection.
- `LegacyBooking.LotCounters`, for the legacy per-lot counter.
- `ReviewController.ReviewTable`, for the review collection.
- `StatsLot.StatsParkingLot` and `SpotLot.SpotParkingLot`, for the two variants.

Records are datatypes, and the controllers are methods on those classes.

Each controller's decision is a pure function of its inputs, stated with its error replies:
`UpdateGuard`, `AddSlotsPlan`, `DeleteSlotPlan`, `ReviewToCreate`, `ReviewToDelete`, `PrepareMoMoPayment` and `IpnEffect`. The
method's `ensures` ties the new state to that function.

Inputs from outside the program are parameters:

- `findById` becomes the document, or null, handed to the method. A document whose id differs
  from the requested one counts as not found.
- The wall clock (`now`, `getHours()`, `getDay()`) and the ids Mongo assigns are parameters.
- So are the fake card check's verdict and the MoMo signature comparison.

Times are integer milliseconds. Money is an integer number of đồng. The price multipliers and
the ratings are exact reals, and `Math.round` is floor of x + 1/2. A request field is
`Absent` (missing or falsy), `Malformed` (present but not castable) or `Given`.

## Model

| member | source | states |
|---|---|---|
| ParkingLot.TierRate | models/ParkingLot.js:120-125 | a lot has an hourly rate for exactly three vehicle classes (motorbike, 4-seat car, SUV), and it is that class's tier `basePricePerHour`; every other class has none |
| ParkingLot.CastSlot | models/ParkingLot.js:10-43 | a pushed slot is accepted iff its trimmed identifier is non-empty and its status and vehicle type are enum values; it then defaults to `available`, vehicle type `any` and the given current booking |
| ParkingLot.AvailableAtMostTotal | models/ParkingLot.js:146-154 | `availableSpots` (the count of available slots) is at most `totalSpots`, and is 0 exactly when no slot is available |
| ParkingLot.AvailabilityByTypeCounts | models/ParkingLot.js:157-166 | a vehicle type has an entry in `availabilityByType` iff it has an available slot (a missing type counts as `any`), and the entry is that number of slots |
| ParkingLot.AvailabilityByTypeSum | models/ParkingLot.js:157-166 | the entries of `availabilityByType` sum to `availableSpots` |
| ParkingLot.StatusAfterSave | models/ParkingLot.js:171-180 | with modified slots, the lot is `full` iff no slot is available; a `full` lot with a free slot reopens as `active`; a non-full lot with a free slot keeps its status; without modified slots the status is untouched |
| ParkingLot.StatusAfterSaveIdempotent | models/ParkingLot.js:171-180 | saving again changes nothing that the first save did not |
| ParkingLot.FindSlot | models/ParkingLot.js:112 | `slots.id(slotId)` finds the first slot with that id, or reports that none has it |
| ParkingLot.ParkingLotDoc.constructor | models/ParkingLot.js:91-125 | a new lot is `active` with rating 0 and no reviews, and keeps its validators (rating in [0, 5], `numReviews` >= 0) |
| ParkingLot.ParkingLotDoc.PreSave | models/ParkingLot.js:171-180 | the hook leaves exactly the status `StatusAfterSave` gives; with modified slots, `full` iff no slot is available, and a `full` lot with a free slot becomes `active` |
| ParkingLot.ParkingLotDoc.SaveSlot | controllers/slotController.js:39-87 | replacing one slot by one with the same id keeps the ids distinct, and the hook runs as modified iff the slots changed |
| ParkingLot.ParkingLotDoc.SaveSlots | models/ParkingLot.js:171-180 | saving new slots stores them and runs the hook as modified, keeping the validators |
| ParkingLot.ParkingLotDoc.SaveStats | models/ParkingLot.js:115-116 | saving review stats within the validators stores them and leaves the status alone |
| Booking.NormalizeVehicleNumber | models/Booking.js:64-69 | the stored plate is the trimmed, upper-cased input, in either order, and is never longer |
| Booking.NormalizeIdempotent | models/Booking.js:64-69 | normalising a stored plate again leaves it unchanged |
| Booking.Save | models/Booking.js:49-53 | a booking saves iff its price is >= 0 and its end is after its start, and then it is stored unchanged |
| Booking.Create | models/Booking.js:5-128 | `new Booking(d).save()` succeeds iff the required times, price, user, lot and vehicle type are present, the price is >= 0 and end > start; defaults: status `confirmed`, no review, no check-in or check-out; the plate is normalised |
| Booking.ActualDurationMinutes | models/Booking.js:113-119 | the duration is defined iff both check-in and check-out are set, and it is |check-out − check-in| rounded to the nearest minute |
| Booking.DurationSymmetric | models/Booking.js:113-119 | the duration does not depend on which of the two times is later |
| Booking.BookingTable.Put | controllers/slotController.js:64 | saving a booking that passed its validators keeps every stored booking valid and changes only its own row |
| Booking.BookingTable.constructor | models/Booking.js:122-128 | an empty collection satisfies the invariant that every stored booking passed its validators and the hook |
| Pricing.CeilHours | controllers/pricingController.js:17-18 | `Math.ceil(ms / 3600000)` is the least whole number of hours covering `ms` |
| Pricing.CeilHoursLeast | controllers/pricingController.js:18 | no smaller number of hours covers the duration |
| Pricing.CeilHoursMonotone | controllers/pricingController.js:18 | a longer stay is never billed fewer hours |
| Pricing.RoundToThousand | controllers/pricingController.js:90 | the result is a multiple of 1000 within 500 of the input (halves round up) |
| Pricing.RoundToThousandUnique | controllers/pricingController.js:90 | that multiple of 1000 is the only one with this property |
| Pricing.RoundToThousandMonotone | controllers/pricingController.js:90 | rounding preserves order |
| Pricing.CalculateBasePrice | controllers/pricingController.js:13-20 | 0 for a missing time, end <= start, or a missing or negative rate; otherwise the started hours times the rate; never negative |
| Pricing.BasePriceSixtyOneMinutes | controllers/pricingController.js:17-19 | 61 minutes at 10000 an hour bills two hours, 20000 |
| Pricing.Surcharge | controllers/pricingController.js:76-87 | exactly one factor applies: the weekend surcharge on days 0 and 6, otherwise the peak-hour surcharge for 17-19h, otherwise the base price |
| Pricing.WithoutBase | controllers/pricingController.js:82 | the filter keeps exactly the factors other than `base_price` |
| Pricing.WithoutLeadingBase | controllers/pricingController.js:71-87 | `['base_price', s]` filtered is `[s]` |
| Pricing.EstimatePrice | controllers/pricingController.js:28-106 | each rejection in order (missing field, invalid id, bad times, unknown vehicle type, unknown lot, no price tier); an estimate iff every check passes; on success the base price, the single factor and the final price rounded to 1000 |
| Pricing.EstimateBounds | controllers/pricingController.js:76-90 | the estimate lies between the rounded base price and the rounded base price times 1.2 |
| PriceCalculator.TimeFactor | utils/priceCalculator.js:20-22 | ×1.2 exactly in the hours 7-9 and 17-19 inclusive, otherwise ×1 |
| PriceCalculator.OccupancyFactor | utils/priceCalculator.js:26-34 | ×1.3 above 80% occupancy, otherwise ×1.1 above 50%, and no factor for a lot without spots |
| PriceCalculator.QualityFactor | utils/priceCalculator.js:38-42 | ×1.1 iff rating > 4.5 with more than 10 reviews; otherwise ×0.9 iff rating in (0, 3) with more than 5 reviews |
| PriceCalculator.CalculateDynamicPrice | utils/priceCalculator.js:6-47 | 0 for a missing or non-numeric base price; always a multiple of 1000 |
| PriceCalculator.FactorsStack | utils/priceCalculator.js:13-46 | applying the three rules in order is multiplying the base price by the product of their factors once, then rounding to the nearest 1000 |
| PriceCalculator.CombinedFactor | utils/priceCalculator.js:13-42 | the stacked multiplier is the product of one factor from each rule and lies in [0.9, 1.716] |
| PriceCalculator.DynamicPriceBounds | utils/priceCalculator.js:13-46 | the dynamic price lies between the base price ×0.9 and ×1.716, both rounded |
| PriceCalculator.OccupancyMonotone | utils/priceCalculator.js:26-34 | fewer free spots never lower the occupancy factor |
| LegacyBooking.Bump | controllers/bookingController.js:55-56 | changes the counter of that one lot by `delta`, and only if the lot exists |
| LegacyBooking.BumpInverse | controllers/bookingController.js:128-136 | taking a spot (lines 55-56) and giving it back restores every counter |
| LegacyBooking.BookingPrice | controllers/bookingController.js:28-33 | for end > start the price is the started hours times the dynamic price; NaN for an invalid date |
| LegacyBooking.PaidDraft | controllers/bookingController.js:43-51 | the corrected draft: the caller's user and lot, the request's vehicle type, `confirmed`, paid at `now` |
| LegacyBooking.PaidDraftAsWritten | controllers/bookingController.js:43-51 | the draft as written: the same fields but no vehicle type |
| LegacyBooking.CreateAndPayAsWrittenAlwaysFails | controllers/bookingController.js:43-52 | as written, saving the draft fails for every request |
| LegacyBooking.CreateAndPayAsWrittenWitness | controllers/bookingController.js:43-52 | one concrete request that the corrected draft stores and the as-written draft rejects with a missing required field |
| LegacyBooking.CreateAndPay | controllers/bookingController.js:12-68 | 400 for missing fields, a full lot, end <= start or a refused card; 404 for an unknown lot; otherwise 201 iff the booking saves, and 500 when its save fails; a 201 stores the paid `confirmed` booking billed by the started hour and takes exactly one spot; any other reply changes nothing |
| LegacyBooking.StatusChangeStorable | models/Booking.js:122-128 | changing only the status of a stored booking keeps it saveable |
| LegacyBooking.CancelMyBooking | controllers/bookingController.js:110-143 | 500 for an id that cannot be cast; 404 for an unknown booking, 401 for another user's booking, 400 from completed, active or cancelled; otherwise the booking becomes cancelled and a spot comes back only if it was confirmed; failures change nothing |
| LegacyBooking.UpdateBookingStatusByAdmin | controllers/bookingController.js:150-180 | 500 for an id that cannot be cast; 404 for an unknown booking, 400 for a status outside the five settable ones; otherwise that status is set from any status, and a spot comes back iff active or confirmed goes to cancelled or completed |
| Payment.PrepareMoMoPayment | controllers/paymentController.js:13-30 | a missing or already-paid booking is refused with 400 before the gateway is contacted; otherwise the amount charged is the booking's total price |
| Payment.MarkPaid | controllers/paymentController.js:81-88 | a paid booking is `confirmed`, paid at `now`, and keeps its times, price, user and lot |
| Payment.IpnEffect | controllers/paymentController.js:76-114 | success on an unpaid booking stores exactly `MarkPaid` of it (paid, `confirmed`, paid now, with the payment result) and takes one spot from its lot; success on a paid one changes nothing; failure stores the booking with status `cancelled` and nothing else changed, without touching the counters; an unknown order changes nothing; other bookings are untouched |
| Payment.IpnSuccessIdempotent | controllers/paymentController.js:79 | a replayed success notification changes nothing |
| Payment.IpnSuccessTakesOneSpot | controllers/paymentController.js:77-96 | a success notification lowers the lot's counter by exactly one, and only for a booking not yet paid |
| Payment.PaidBookingNotChargeable | controllers/paymentController.js:16-19 | after a success notification, a new payment for that booking is refused |
| Payment.PaidBookingChargeableAsWritten | controllers/paymentController.js:16-19 | with the schema as written, a booking a success notification paid is `confirmed` yet a new payment charges its full price again |
| Payment.HandleMoMoIpn | controllers/paymentController.js:58-121 | a bad signature gives 400 and changes nothing; an uncastable order id gives 500 and changes nothing; otherwise 204, and the new bookings and counters are exactly `IpnEffect` |
| Payment.Persisted | models/Booking.js:5-108 | under the schema as written, a saved booking keeps no `isPaid`, `paidAt` or `paymentResult` |
| Payment.IpnEffectAsWritten | controllers/paymentController.js:76-114 | the notification against the schema as written; an unknown order changes nothing |
| Payment.IpnReplayAsWrittenTakesTwoSpots | controllers/paymentController.js:79-96 | as written, a replayed success notification takes a second spot from the lot |
| ExpirySweep.ExpiredIds | server.js:84-87 | exactly the bookings that are active or confirmed and whose end is strictly before `now` |
| ExpirySweep.SweptAtAdd | server.js:93-96 | sweeping one more booking adds one to its own lot's count and nothing to the others |
| ExpirySweep.RowsAfter | server.js:90-92 | the swept bookings are `completed` and every other booking is unchanged |
| ExpirySweep.LotsAfter | server.js:93-96 | every lot's counter rises by the number of its swept bookings; lots that do not exist stay absent |
| ExpirySweep.RowsAfterStep | server.js:90-92 | completing one more booking is one step of `RowsAfter` |
| ExpirySweep.LotsAfterStep | server.js:93-96 | giving one more spot back is one step of `LotsAfter` |
| ExpirySweep.RowsAfterStorable | server.js:91-92 | completing bookings keeps them saveable, so the sweep's saves never fail |
| ExpirySweep.SweepLoop | server.js:90-100 | the loop completes exactly the expired bookings and gives each one's lot one spot back |
| ExpirySweep.Sweep | server.js:80-107 | after a sweep the bookings and the counters are `RowsAfter` and `LotsAfter` of the expired set, and no booking is expired any more |
| ExpirySweep.SweepLeavesNoneExpired | server.js:84-92 | after the sweep, the sweep's query matches nothing |
| ExpirySweep.NotExpiredUntouched | server.js:84-87 | a booking ending at `now` or later, or one that is neither active nor confirmed, is not selected |
| SlotController.BranchOf | controllers/slotController.js:39-85 | which branch runs: check-out iff occupied goes to available; maintenance iff requested from a non-occupied slot; no change iff the same status is requested again (maintenance aside) |
| SlotController.UpdatedSlot | controllers/slotController.js:39-85 | in every branch the slot takes the requested status and keeps its id, identifier, vehicle type and sensor; `currentBooking` is cleared only by a check-out or by the maintenance branch |
| SlotController.OccupiedToMaintenanceKeepsBooking | controllers/slotController.js:72-85 | occupied to maintenance falls through and keeps the current booking |
| SlotController.UpdatedSlotIdempotent | controllers/slotController.js:39-85 | repeating the same status request changes nothing more, except occupied to maintenance: that request falls through and keeps the booking, and its repeat takes the maintenance branch and clears it |
| SlotController.CheckoutBooking | controllers/slotController.js:48-54 | a booking is checked out iff the slot goes from occupied to available and its current booking exists and is active |
| SlotController.CompleteOnCheckout | controllers/slotController.js:54-65 | the checked-out booking is completed, ends `now` and costs the started hours times its class's rate; a class without a tier fails; otherwise the result is saveable iff `now` > start |
| SlotController.UpdateGuard | controllers/slotController.js:18-31 | 400 when the status or the lot id is missing; 500 when the lot or the slot is not found or the requested status is outside the enum; otherwise the index of the slot with that id |
| SlotController.UpdateSlotStatus | controllers/slotController.js:14-112 | 400 for a missing status or lot id; 200 iff the lot and slot exist and any check-out saves; then only that slot changes, to `UpdatedSlot`, the hook sets the status, and the booking is checked out; any failure rolls back the lot and the bookings |
| SlotController.AvailableAfterUpdate | controllers/slotController.js:39-87 | after an update, `availableSpots` loses one if the slot was available and gains one if the requested status is `available` |
| SlotController.CastAll | controllers/slotController.js:133 | every pushed slot is cast, in order, and the push fails iff one of them fails |
| SlotController.AppendDistinct | controllers/slotController.js:133 | appending slots with fresh ids keeps the ids distinct |
| SlotController.AddSlotsPlan | controllers/slotController.js:119-146 | 400 for a missing or empty list; 404 for an unknown lot; 500 for an invalid slot; otherwise the existing slots followed by the new ones in order, with no identifier check |
| SlotController.PlanKeepsDistinct | controllers/slotController.js:133 | the planned slots have distinct ids |
| SlotController.AddSlotsToParkingLot | controllers/slotController.js:119-146 | replies as `AddSlotsPlan` decides, and on 201 stores its slots and runs the hook; otherwise the lot is unchanged |
| SlotController.DeleteSlotPlan | controllers/slotController.js:158-168 | 500 for a lot id that is not an id; 404 for an unknown lot or slot; 400 for an occupied or reserved slot; otherwise the index of the slot to remove |
| SlotController.DeleteSlot | controllers/slotController.js:153-181 | 500 for a lot id that is not an id; 404 for an unknown lot or slot; 400 for an occupied or reserved slot; otherwise exactly that slot is removed, the others keep their order, and `availableSpots` drops iff the slot was available |
| SlotController.RemoveKeepsOthers | controllers/slotController.js:168 | removing a slot leaves no slot with its id and keeps the other ids distinct |
| ReviewController.ReviewTable.constructor | models/Review.js:5-44 | an empty collection satisfies the invariants: every review passes its validators, ids are distinct, and there is at most one review per user and lot |
| ReviewController.ReviewTable.Insert | controllers/reviewController.js:80 | storing a valid review that the user has not yet written appends it and keeps the invariants |
| ReviewController.ReviewTable.Remove | controllers/reviewController.js:228 | deleting a review removes exactly it and keeps the invariants |
| ReviewController.LotReviews | controllers/reviewController.js:86-93 | the `$match` stage keeps only reviews of the lot |
| ReviewController.LotReviewsMembers | controllers/reviewController.js:86-93 | a review is matched iff it is stored and is of that lot |
| ReviewController.LotReviewsEmpty | controllers/reviewController.js:96-105 | nothing is matched iff no stored review is of that lot |
| ReviewController.LotReviewsAppend | controllers/reviewController.js:80-93 | a new review joins its own lot's group, at the end, and no other lot's |
| ReviewController.LotReviewsRemove | controllers/reviewController.js:228-246 | deleting a review removes one review and its rating from its own lot's group |
| ReviewController.SumBounds | models/Review.js:28-33 | ratings in [1, 5] sum to between n and 5n |
| ReviewController.Aggregate | controllers/reviewController.js:86-93 | the group exists iff the lot has a review; its count is the number of the lot's reviews and its average times the count is their rating sum |
| ReviewController.AggregateBounds | controllers/reviewController.js:86-99 | the average of valid ratings lies in [1, 5] |
| ReviewController.RoundTenth | controllers/reviewController.js:99 | `Math.round(x * 10) / 10` is a multiple of 0.1 within 0.05 of x, halves rounded up |
| ReviewController.RoundTenthWithin | controllers/reviewController.js:99 | rounding to a tenth keeps a value inside bounds that are tenths |
| ReviewController.StatsOf | controllers/reviewController.js:96-105 | a lot with reviews gets their count and their rounded average; otherwise the given fallback |
| ReviewController.StatsStorable | models/ParkingLot.js:115-116 | the recomputed stats satisfy the lot's validators |
| ReviewController.GetParkingLotReviews | controllers/reviewController.js:154-204 | 400 for an invalid id; otherwise exactly the lot's reviews, newest first, their count, and `canReview` iff the user has a completed booking at the lot and no review of it |
| ReviewController.StoredComment | controllers/reviewController.js:73 | the comment is stored trimmed, or as the empty string when absent; a non-string comment makes `trim` throw |
| ReviewController.ReviewToCreate | controllers/reviewController.js:14-147 | in order: 400 for a rating missing or outside [1, 5]; 400 for an invalid lot id; 500 for an unknown lot; 403 without a completed booking; 400 for a second review; otherwise the trimmed review, which saves iff its comment and name are non-empty |
| ReviewController.CreateParkingLotReview | controllers/reviewController.js:14-147 | replies as `ReviewToCreate` decides; on 201 the review is appended and the lot's stats are recomputed over the lot's reviews; any failure changes nothing |
| ReviewController.CreatedReviewStats | controllers/reviewController.js:86-105 | after a create, `numReviews` is the number of the lot's reviews, `rating` is their rounded average, and the author can no longer review the lot |
| ReviewController.AppendKeepsValid | controllers/reviewController.js:65-80 | the duplicate check makes the append keep one review per user and lot |
| ReviewController.FindReview | controllers/reviewController.js:222 | `findById` finds the review with that id, or reports that none has it |
| ReviewController.RemoveKeepsValid | controllers/reviewController.js:228 | deleting keeps every invariant of the collection |
| ReviewController.ReviewToDelete | controllers/reviewController.js:212-225 | 400 for an invalid id, 500 for an unknown review, otherwise the position of the review |
| ReviewController.DeleteReview | controllers/reviewController.js:212-268 | replies as `ReviewToDelete` decides; on success the review is removed and, if its lot exists, the stats are recomputed, or reset to 0/0 when none is left |
| ReviewController.DeletedReviewStats | controllers/reviewController.js:228-250 | after a delete, the lot has one review fewer and `rating` is the rounded average of the rest, or 0 |
| ReviewController.FirstReviewSetsRating | controllers/reviewController.js:96-105 | the first review of a lot sets `numReviews` to 1 and `rating` to that review's rounded rating |
| ReviewController.OtherLotStatsUnchanged | controllers/reviewController.js:86-93 | a review of another lot leaves a lot's aggregate unchanged |
| StatsLot.CastTsSlot | server/src/models/parkingLot.model.ts:14-30 | a slot is accepted iff its trimmed slot number is non-empty and its enums are valid; it then defaults to `available` and vehicle type `any` |
| StatsLot.StatisticsAfterSave | server/src/models/parkingLot.model.ts:138-146 | with modified slots, `totalCapacity` is the slot count and `availableNow` the count of available slots, at most the capacity; otherwise nothing changes; the rating stats are never touched |
| StatsLot.StatisticsAfterSaveValid | server/src/models/parkingLot.model.ts:110-115 | the hook keeps the statistics within their validators |
| StatsLot.StatisticsAfterSaveIdempotent | server/src/models/parkingLot.model.ts:138-146 | saving again after a recount changes nothing |
| StatsLot.AvailableNowExtremes | server/src/models/parkingLot.model.ts:141-143 | `availableNow` is 0 iff no slot is available, and equals `totalCapacity` iff every slot is |
| StatsLot.StatsParkingLot.constructor | server/src/models/parkingLot.model.ts:110-115 | a new lot starts with every statistic at 0 |
| StatsLot.StatsParkingLot.PreSave | server/src/models/parkingLot.model.ts:138-146 | the hook leaves exactly `StatisticsAfterSave` and keeps the validators |
| SpotLot.CastSpot | models/parkingLot.model.ts:4-12 | a spot is accepted iff its number is non-empty and its type is an enum value; it then defaults to unoccupied and `standard` |
| SpotLot.FreeSpots | models/parkingLot.model.ts:76 | the free spots number at most the spots, and are 0 iff every spot is occupied |
| SpotLot.AvailableAfterSave | models/parkingLot.model.ts:74-79 | with modified spots, the count of unoccupied spots, at most the number of spots; otherwise the stored value |
| SpotLot.OccupyLowersAvailable | models/parkingLot.model.ts:74-79 | occupying a free spot and saving lowers `availableSpots` by one |
| SpotLot.CapacityNotReconciled | models/parkingLot.model.ts:74-79 | the hook never looks at `capacity`: for every capacity, some spots leave more free spots than it |
| SpotLot.SpotParkingLot.constructor | models/parkingLot.model.ts:40-62 | a new lot keeps its capacity, counter and spots, with rating 4.5 from no reviews |
| SpotLot.SpotParkingLot.PreSave | models/parkingLot.model.ts:74-79 | the hook leaves exactly `AvailableAfterSave` and keeps the rating in [1, 5] |
| Text.TrimIdempotent | models/Booking.js:66 | trimming a trimmed string changes nothing |
| Text.UpperTrimCommute | models/Booking.js:64-69 | trimming and upper-casing commute |

## Left out

- Network and cryptography:
  - The MoMo HTTP request (controllers/paymentController.js:21-45) is left out. `PrepareMoMoPayment` stops at the amount to charge.
  - The HMAC-SHA256 signature of the notification is an input: `signatureValid`.
- The fake card check in `createAndPayBooking` (controllers/bookingController.js:36-40) is an input, `cardAccepted`, because it is a simulation.
- Socket.IO emits, console logging, `populate`, `lean` and the JSON response bodies are left out. Replies are modelled as status codes only.
  - A missing Socket.IO server would make `updateSlotStatus`, `addSlotsToParkingLot` and `deleteSlot` throw after their save (controllers/slotController.js:91-92, 137-138, 172-173). The server always sets it (server.js:43), so that case is not modelled.
- Mongoose sessions and transactions are not modelled as such. Each controller is one method whose failures leave every document as it was. Concurrent requests are out of scope.
- The cron schedule (every five minutes) is left out; `ExpirySweep.Sweep` is one run of the callback.
  - An error inside the sweep is caught and logged (server.js:104-106). The model has no failing step, so it has no such error path.
- Floating point:
  - Prices, multipliers and ratings are exact reals, so results that differ from double arithmetic only by rounding are not modelled.
  - `Math.round` is modelled as floor of x + 1/2, and the rating's average uses real division.
- Time zones: `getHours()` and `getDay()` are parameters.
- ObjectId validity: `isValid` and a failed cast are `None` or `Malformed` inputs.
- Plate text: `ToUpper` upper-cases only the Latin letters a-z. `Trim` removes the ASCII and Latin-1 white space only.
- The agreement between the legacy per-lot counter and the slot-derived `availableSpots` virtual is not modelled. The booking, payment and sweep controllers move a counter that the slot-based lot schema does not store (models/ParkingLot.js:151-154), so the two are modelled separately.
- The booking's `slot`, `slotIdentifier`, `priceDetails` and `notes` paths, and the lot's location, name, images and amenities, are not modelled, because no modelled logic reads them.
- `getMyBookings`, `getAllBookings`, `updateReview` (it answers 501) and the lot CRUD controller are not modelled. They read documents or are stubs.
- Authentication, users and products are not modelled.
- The `isModified('slots')` test is modelled in two ways:
  - `SlotController.UpdateSlotStatus` uses "the slot array changed".
  - The other slot writers always mark the slots modified.
- ReviewController.CreateParkingLotReview: states that the lot's status is unchanged but not its slots and pricing tiers. Neither is written by the method, and the smaller frame keeps the proof cheap.
- ReviewController.GetParkingLotReviews: "newest first" assumes that the collection holds reviews in creation order. `createdAt` is not modelled.
- LegacyBooking.CreateAndPay: a lot id that is present but not an ObjectId is modelled as a 500 from the failed cast. The receipt string and `paidAt` are inputs. The stored booking keeps `isPaid` only with the payment paths of the second finding; as written it saves no payment fields.
- Booking.Create: stores `isPaid`, `paidAt` and `paymentResult` as if the booking schema had those paths, which is the corrected schema of the second finding. As written, strict mode drops them (`Payment.Persisted`).
- Payment.PrepareMoMoPayment: its already-paid refusal holds only with the corrected schema. As written no stored booking is paid, so a paid booking is charged again (`Payment.PaidBookingChargeableAsWritten`).
- PriceCalculator.CalculateDynamicPrice: the lot schema (models/ParkingLot.js:91-125) has no `basePrice` path, only `pricingTiers.*.basePricePerHour`, so on every stored lot `basePrice` is missing and the dynamic price is 0. `LotSnapshot.basePrice` is kept general so that the three pricing rules are modelled as written; the model does not record that a stored lot always takes the 0 branch.
- LegacyBooking.CreateAndPay: because of the missing `basePrice`, every booking it prices from a stored lot has a dynamic price of 0 and so a `totalPrice` of 0 (controllers/bookingController.js:28-33). The model prices from whatever `basePrice` the lot snapshot holds.
- SlotController.AddSlotsToParkingLot: requires the new slot ids to be fresh. A pushed slot may carry its own `_id`, which Mongoose keeps and which can collide with an existing slot; `SlotInput` has no `_id` field, so that case is not modelled.
- Payment.HandleMoMoIpn: `resultCode` is an optional integer. A string "0" is a failure, as `===` makes it.

## Findings

| source | as written | input that shows it | evidently intended | confidence | as-written member | corrected member |
|---|---|---|---|---|---|---|
| controllers/bookingController.js:43-52 | the paid booking is built without `vehicleType`, which the booking schema requires (models/Booking.js:70-74), so its save always fails and the request answers 500 | any request that passes the guards, e.g. lot 7 with free spots, start 0, end one hour later, an accepted card and vehicle type `car_4_seats` | pass the request's vehicle type to the new booking, so that a valid request stores a confirmed booking and takes one spot (its payment fields are kept only with the second row's fix) | high (not executed) | LegacyBooking.CreateAndPayAsWrittenWitness | LegacyBooking.CreateAndPay |
| controllers/paymentController.js:79-89 | `isPaid`, `paidAt` and `paymentResult` are not paths of the booking schema (models/Booking.js:5-108), so strict mode drops them on save: the `!booking.isPaid` guard never stops a replay, and `createMoMoPayment` (line 17) charges a paid booking again | an unpaid booking whose lot exists, followed by the same success notification twice | the payment fields are stored, so a replayed success notification changes nothing and takes no second spot | medium (not executed) | Payment.IpnReplayAsWrittenTakesTwoSpots | Payment.IpnSuccessIdempotent |

/** The booking coordinator (backend/services/bookingService.js): creating a
    booking checks availability, prices it, snapshots equipment and coach
    prices, stores it as confirmed and takes its equipment out of stock;
    cancelling it checks ownership and status, marks it cancelled and puts
    the equipment back. Each operation is one atomic step: every failure
    leaves the store as it was, as the aborted transaction does. */
module BookingService {
  import opened Wrappers
  import opened JsStrings
  import opened TimeUtils
  import opened Models
  import opened EquipmentModel
  import opened Availability
  import opened Pricing

  datatype CreateResult = Created(booking: Booking) | NotCreated(error: string, message: string)

  datatype CancelResult = CancelSucceeded(booking: Booking) | CancelFailed(error: string)

  // ---------------------------------------------------------------------
  // Quantities
  // ---------------------------------------------------------------------

  /** How many units of `id` a request asks for, over all its entries. */
  function QtyRequested(items: seq<EquipmentRequest>, id: EquipmentId): int
    decreases |items|
  {
    if |items| == 0 then 0
    else QtyRequested(items[..|items| - 1], id) + (if items[|items| - 1].equipmentId == id then items[|items| - 1].quantity else 0)
  }

  /** How many units of `id` a booking's equipment lines hold. */
  function QtyLines(lines: seq<EquipmentLine>, id: EquipmentId): int
    decreases |lines|
  {
    if |lines| == 0 then 0
    else QtyLines(lines[..|lines| - 1], id) + (if lines[|lines| - 1].equipmentId == id then lines[|lines| - 1].quantity else 0)
  }

  /** Units of `id` held by bookings that are not cancelled. */
  function Outstanding(bookings: seq<Booking>, id: EquipmentId): int
    decreases |bookings|
  {
    if |bookings| == 0 then 0
    else
      var b := bookings[|bookings| - 1];
      Outstanding(bookings[..|bookings| - 1], id) + (if b.status != Cancelled then QtyLines(b.equipment, id) else 0)
  }

  // ---------------------------------------------------------------------
  // What a create stores
  // ---------------------------------------------------------------------

  /** `equipmentWithPrices`: one line per requested item that exists, with
      the item's price per hour at creation time. */
  function Snapshot(equipment: map<EquipmentId, Equipment>, items: seq<EquipmentRequest>): seq<EquipmentLine>
    decreases |items|
  {
    if |items| == 0 then []
    else
      var item := items[|items| - 1];
      Snapshot(equipment, items[..|items| - 1])
        + (if item.equipmentId in equipment
           then [EquipmentLine(item.equipmentId, item.quantity, equipment[item.equipmentId].pricePerHour)]
           else [])
  }

  /** The coach reference and its price: the coach's price when a coach was
      requested and priced, 0 otherwise. */
  function CoachSnapshot(coachId: Option<CoachId>, quote: Breakdown): CoachLine {
    CoachLine(coachId, if coachId.Some? && quote.coachDetails.Some? then quote.coachDetails.value.pricePerHour else 0.0)
  }

  /** The pricing fields stored with a booking. */
  function PricingOf(quote: Breakdown): PricingFields {
    PricingFields(quote.courtBasePrice, quote.courtMultiplier, quote.courtPrice, quote.equipmentPrice, quote.coachPrice,
            quote.subtotal, quote.tax, quote.totalPrice, quote.appliedRules)
  }

  /** The booking document a create saves. */
  function NewBooking(id: BookingId, req: BookingRequest, equipment: map<EquipmentId, Equipment>, quote: Breakdown): Booking {
    Booking(id, req.userId, req.resources.courtId, req.resources.startTime, req.resources.endTime,
            Snapshot(equipment, req.resources.equipment), CoachSnapshot(req.resources.coachId, quote),
            PricingOf(quote), Confirmed, req.customerName, req.customerEmail, req.customerPhone)
  }

  // ---------------------------------------------------------------------
  // Stock updates (`$inc`, which bypasses the pre-save hook)
  // ---------------------------------------------------------------------

  /** `availableQuantity` of `id` moved by `delta`; a missing id is left
      alone, as `findByIdAndUpdate` on a missing document is. */
  function Bump(equipment: map<EquipmentId, Equipment>, id: EquipmentId, delta: int): map<EquipmentId, Equipment> {
    if id in equipment
    then equipment[id := equipment[id].(availableQuantity := equipment[id].availableQuantity + delta)]
    else equipment
  }

  /** The create's decrements, one per request entry, in order. */
  function Decremented(equipment: map<EquipmentId, Equipment>, items: seq<EquipmentRequest>): map<EquipmentId, Equipment>
    decreases |items|
  {
    if |items| == 0 then equipment
    else Bump(Decremented(equipment, items[..|items| - 1]), items[|items| - 1].equipmentId, -items[|items| - 1].quantity)
  }

  /** The cancel's increments, one per stored line, in order. */
  function Restored(equipment: map<EquipmentId, Equipment>, lines: seq<EquipmentLine>): map<EquipmentId, Equipment>
    decreases |lines|
  {
    if |lines| == 0 then equipment
    else Bump(Restored(equipment, lines[..|lines| - 1]), lines[|lines| - 1].equipmentId, lines[|lines| - 1].quantity)
  }

  // ---------------------------------------------------------------------
  // The two operations as transitions
  // ---------------------------------------------------------------------

  datatype CreateOutcome = CreateOutcome(result: CreateResult, bookings: seq<Booking>, equipment: map<EquipmentId, Equipment>)

  datatype CancelOutcome = CancelOutcome(result: CancelResult, bookings: seq<Booking>, equipment: map<EquipmentId, Equipment>)

  /** `createBookingWithTransaction`: the result and the new bookings and
      stock. The save's validation failure is reported with its error name
      only. */
  function Create(courts: map<CourtId, Court>, equipment: map<EquipmentId, Equipment>, coaches: map<CoachId, Coach>,
                  rules: seq<PricingRule>, bookings: seq<Booking>, cal: Calendar, req: BookingRequest): CreateOutcome
  {
    var check := MultiResourceReport(courts, equipment, coaches, bookings, cal, req.resources, None);
    if !check.available then
      CreateOutcome(NotCreated("Booking not available", Join(check.errors, ", ")), bookings, equipment)
    else
      var quote := Quote(courts, equipment, coaches, rules, cal, req.resources);
      if quote.Failure? then CreateOutcome(NotCreated(quote.error, "Failed to create booking"), bookings, equipment)
      else
        var b := NewBooking(|bookings|, req, equipment, quote.value);
        if !BookingSchemaValid(b) then
          CreateOutcome(NotCreated("Booking validation failed", "Failed to create booking"), bookings, equipment)
        else CreateOutcome(Created(b), bookings + [b], Decremented(equipment, req.resources.equipment))
  }

  /** `cancelBooking`: the result and the new bookings and stock. */
  function Cancel(bookings: seq<Booking>, equipment: map<EquipmentId, Equipment>, id: BookingId, userId: string): CancelOutcome {
    if id >= |bookings| then CancelOutcome(CancelFailed("Booking not found"), bookings, equipment)
    else
      var b := bookings[id];
      if b.userId != userId then CancelOutcome(CancelFailed("Not authorized to cancel this booking"), bookings, equipment)
      else if b.status == Cancelled then CancelOutcome(CancelFailed("Booking is already cancelled"), bookings, equipment)
      else
        var cancelled := b.(status := Cancelled);
        CancelOutcome(CancelSucceeded(cancelled), bookings[id := cancelled], Restored(equipment, b.equipment))
  }

  // ---------------------------------------------------------------------
  // The store invariant
  // ---------------------------------------------------------------------

  /** No two confirmed bookings of the same court overlap. */
  predicate NoCourtClash(bookings: seq<Booking>) {
    forall i, j :: 0 <= i < j < |bookings| && bookings[i].status == Confirmed && bookings[j].status == Confirmed
                   && bookings[i].court == bookings[j].court
                   ==> !CheckTimeOverlap(bookings[i].startTime, bookings[i].endTime, bookings[j].startTime, bookings[j].endTime)
  }

  /** No two confirmed bookings with the same coach overlap. */
  predicate NoCoachClash(bookings: seq<Booking>) {
    forall i, j :: 0 <= i < j < |bookings| && bookings[i].status == Confirmed && bookings[j].status == Confirmed
                   && bookings[i].coach.coachId.Some? && bookings[i].coach.coachId == bookings[j].coach.coachId
                   ==> !CheckTimeOverlap(bookings[i].startTime, bookings[i].endTime, bookings[j].startTime, bookings[j].endTime)
  }

  /** What holds of the bookings a store built by creates and cancels holds:
      ids are positions, every booking passed validation and has a non-empty
      interval, and no court or coach is double-booked. */
  predicate StoreInvariant(bookings: seq<Booking>) {
    && (forall i :: 0 <= i < |bookings| ==> bookings[i].id == i)
    && (forall i :: 0 <= i < |bookings| ==> BookingSchemaValid(bookings[i]))
    && NonEmptyIntervals(bookings)
    && NoCourtClash(bookings)
    && NoCoachClash(bookings)
  }

  // ---------------------------------------------------------------------
  // Stock algebra
  // ---------------------------------------------------------------------

  /** The decrements take each item's requested total off its available
      quantity and change nothing else. */
  lemma {:induction false} DecrementedSpec(equipment: map<EquipmentId, Equipment>, items: seq<EquipmentRequest>)
    ensures Decremented(equipment, items).Keys == equipment.Keys
    ensures forall x :: x in equipment ==>
      Decremented(equipment, items)[x] == equipment[x].(availableQuantity := equipment[x].availableQuantity - QtyRequested(items, x))
    decreases |items|
  {
    if |items| > 0 {
      DecrementedSpec(equipment, items[..|items| - 1]);
    }
  }

  /** The increments add each item's booked total back and change nothing
      else. */
  lemma {:induction false} RestoredSpec(equipment: map<EquipmentId, Equipment>, lines: seq<EquipmentLine>)
    ensures Restored(equipment, lines).Keys == equipment.Keys
    ensures forall x :: x in equipment ==>
      Restored(equipment, lines)[x] == equipment[x].(availableQuantity := equipment[x].availableQuantity + QtyLines(lines, x))
    decreases |lines|
  {
    if |lines| > 0 {
      RestoredSpec(equipment, lines[..|lines| - 1]);
    }
  }

  /** The snapshot has one line per existing requested item, in order, with
      that item's current price, so it holds exactly the requested quantity
      of every existing item. */
  lemma SnapshotSpec(equipment: map<EquipmentId, Equipment>, items: seq<EquipmentRequest>)
    ensures var lines := Snapshot(equipment, items);
      && |lines| <= |items|
      && (forall k :: 0 <= k < |lines| ==>
            lines[k].equipmentId in equipment && lines[k].pricePerHour == equipment[lines[k].equipmentId].pricePerHour)
      && (forall x :: x in equipment ==> QtyLines(lines, x) == QtyRequested(items, x))
      && ((forall k :: 0 <= k < |items| ==> items[k].equipmentId in equipment) ==>
            |lines| == |items| &&
            forall k :: 0 <= k < |items| ==>
              lines[k] == EquipmentLine(items[k].equipmentId, items[k].quantity, equipment[items[k].equipmentId].pricePerHour))
  {
    SnapshotLines(equipment, items);
    SnapshotQuantities(equipment, items);
  }

  /** The snapshot snoc step: an existing last item adds its line. */
  lemma SnapshotStep(equipment: map<EquipmentId, Equipment>, items: seq<EquipmentRequest>)
    requires |items| > 0
    ensures var item := items[|items| - 1];
      Snapshot(equipment, items) == Snapshot(equipment, items[..|items| - 1])
        + (if item.equipmentId in equipment
           then [EquipmentLine(item.equipmentId, item.quantity, equipment[item.equipmentId].pricePerHour)]
           else [])
  {
  }

  lemma {:induction false} SnapshotLines(equipment: map<EquipmentId, Equipment>, items: seq<EquipmentRequest>)
    ensures var lines := Snapshot(equipment, items);
      && |lines| <= |items|
      && (forall k :: 0 <= k < |lines| ==>
            lines[k].equipmentId in equipment && lines[k].pricePerHour == equipment[lines[k].equipmentId].pricePerHour)
      && ((forall k :: 0 <= k < |items| ==> items[k].equipmentId in equipment) ==>
            |lines| == |items| &&
            forall k :: 0 <= k < |items| ==>
              lines[k] == EquipmentLine(items[k].equipmentId, items[k].quantity, equipment[items[k].equipmentId].pricePerHour))
    decreases |items|
  {
    if |items| > 0 {
      var prefix := items[..|items| - 1];
      SnapshotLines(equipment, prefix);
      SnapshotStep(equipment, items);
      var plines := Snapshot(equipment, prefix);
      var item := items[|items| - 1];
      if item.equipmentId !in equipment {
        assert plines + [] == plines;
      }
      if forall k :: 0 <= k < |items| ==> items[k].equipmentId in equipment {
        assert forall k :: 0 <= k < |prefix| ==> prefix[k] == items[k];
      }
    }
  }

  lemma {:induction false} SnapshotQuantities(equipment: map<EquipmentId, Equipment>, items: seq<EquipmentRequest>)
    ensures forall x :: x in equipment ==> QtyLines(Snapshot(equipment, items), x) == QtyRequested(items, x)
    decreases |items|
  {
    if |items| > 0 {
      var prefix := items[..|items| - 1];
      SnapshotQuantities(equipment, prefix);
      SnapshotStep(equipment, items);
      var lines := Snapshot(equipment, items);
      var plines := Snapshot(equipment, prefix);
      var item := items[|items| - 1];
      if item.equipmentId in equipment {
        assert lines[..|lines| - 1] == plines;
      } else {
        assert plines + [] == plines;
      }
    }
  }

  /** No two request entries name the same item. */
  predicate DistinctItems(items: seq<EquipmentRequest>) {
    forall i, j :: 0 <= i < j < |items| ==> items[i].equipmentId != items[j].equipmentId
  }

  lemma {:induction false} QtyRequestedDistinct(items: seq<EquipmentRequest>, x: EquipmentId)
    requires DistinctItems(items)
    ensures (forall k :: 0 <= k < |items| ==> items[k].equipmentId != x) ==> QtyRequested(items, x) == 0
    ensures forall k :: 0 <= k < |items| && items[k].equipmentId == x ==> QtyRequested(items, x) == items[k].quantity
    decreases |items|
  {
    if |items| > 0 {
      var n := |items| - 1;
      var prefix := items[..n];
      assert DistinctItems(prefix) by {
        forall i, j | 0 <= i < j < |prefix| ensures prefix[i].equipmentId != prefix[j].equipmentId {
          assert prefix[i] == items[i] && prefix[j] == items[j];
        }
      }
      QtyRequestedDistinct(prefix, x);
      forall k | 0 <= k < |items| && items[k].equipmentId == x ensures QtyRequested(items, x) == items[k].quantity {
        if k < n {
          assert prefix[k] == items[k];
        } else {
          assert forall j :: 0 <= j < |prefix| ==> prefix[j].equipmentId != x;
        }
      }
      if forall k :: 0 <= k < |items| ==> items[k].equipmentId != x {
        assert forall k :: 0 <= k < |prefix| ==> prefix[k] == items[k];
      }
    }
  }

  // ---------------------------------------------------------------------
  // Create
  // ---------------------------------------------------------------------

  /** Every failing create leaves bookings and stock as they were. A failed
      availability check is reported as "Booking not available" with its
      errors joined by ", "; a pricing error or a validation failure is
      reported with "Failed to create booking". */
  lemma CreateFailures(courts: map<CourtId, Court>, equipment: map<EquipmentId, Equipment>, coaches: map<CoachId, Coach>,
                       rules: seq<PricingRule>, bookings: seq<Booking>, cal: Calendar, req: BookingRequest)
    ensures var o := Create(courts, equipment, coaches, rules, bookings, cal, req);
      && (o.result.NotCreated? ==> o.bookings == bookings && o.equipment == equipment)
      && (o.result.NotCreated? <==>
            || !MultiResourceReport(courts, equipment, coaches, bookings, cal, req.resources, None).available
            || Quote(courts, equipment, coaches, rules, cal, req.resources).Failure?
            || !BookingSchemaValid(NewBooking(|bookings|, req, equipment, Quote(courts, equipment, coaches, rules, cal, req.resources).value)))
      && (var check := MultiResourceReport(courts, equipment, coaches, bookings, cal, req.resources, None);
          !check.available ==> o.result == NotCreated("Booking not available", Join(check.errors, ", ")))
      && (o.result.NotCreated? && o.result.error != "Booking not available" ==> o.result.message == "Failed to create booking")
  {
  }

  /** What `Create` returns once every check has passed. */
  lemma CreatedOutcome(courts: map<CourtId, Court>, equipment: map<EquipmentId, Equipment>, coaches: map<CoachId, Coach>,
                       rules: seq<PricingRule>, bookings: seq<Booking>, cal: Calendar, req: BookingRequest)
    requires Create(courts, equipment, coaches, rules, bookings, cal, req).result.Created?
    ensures var quote := Quote(courts, equipment, coaches, rules, cal, req.resources);
      && MultiResourceReport(courts, equipment, coaches, bookings, cal, req.resources, None).available
      && quote.Success?
      && var b := NewBooking(|bookings|, req, equipment, quote.value);
         && BookingSchemaValid(b)
         && Create(courts, equipment, coaches, rules, bookings, cal, req)
            == CreateOutcome(Created(b), bookings + [b], Decremented(equipment, req.resources.equipment))
  {
  }

  /** A create whose checks all pass saves the new booking and takes its
      items out of stock. */
  lemma CreateWhenChecksPass(courts: map<CourtId, Court>, equipment: map<EquipmentId, Equipment>, coaches: map<CoachId, Coach>,
                             rules: seq<PricingRule>, bookings: seq<Booking>, cal: Calendar, req: BookingRequest)
    requires MultiResourceReport(courts, equipment, coaches, bookings, cal, req.resources, None).available
    requires Quote(courts, equipment, coaches, rules, cal, req.resources).Success?
    requires BookingSchemaValid(NewBooking(|bookings|, req, equipment, Quote(courts, equipment, coaches, rules, cal, req.resources).value))
    ensures var b := NewBooking(|bookings|, req, equipment, Quote(courts, equipment, coaches, rules, cal, req.resources).value);
      Create(courts, equipment, coaches, rules, bookings, cal, req)
        == CreateOutcome(Created(b), bookings + [b], Decremented(equipment, req.resources.equipment))
  {
  }

  /** The saved document carries the request's user, court, times, customer
      and coach, every one of the quote's price fields, the price snapshot of
      the requested items, and exactly the requested total of each existing
      item. */
  lemma NewBookingFields(id: BookingId, req: BookingRequest, equipment: map<EquipmentId, Equipment>, quote: Breakdown)
    ensures var b := NewBooking(id, req, equipment, quote);
      && b.id == id && b.status == Confirmed
      && b.userId == req.userId && b.court == req.resources.courtId
      && b.startTime == req.resources.startTime && b.endTime == req.resources.endTime
      && b.customerName == req.customerName && b.customerEmail == req.customerEmail && b.customerPhone == req.customerPhone
      && b.pricing == PricingFields(quote.courtBasePrice, quote.courtMultiplier, quote.courtPrice, quote.equipmentPrice,
                                    quote.coachPrice, quote.subtotal, quote.tax, quote.totalPrice, quote.appliedRules)
      && b.equipment == Snapshot(equipment, req.resources.equipment)
      && b.coach.coachId == req.resources.coachId
      && b.coach.pricePerHour == (if req.resources.coachId.Some? && quote.coachDetails.Some?
                                  then quote.coachDetails.value.pricePerHour else 0.0)
      && (forall x :: x in equipment ==> QtyLines(b.equipment, x) == QtyRequested(req.resources.equipment, x))
  {
    SnapshotQuantities(equipment, req.resources.equipment);
  }

  /** A successful create appends exactly one confirmed booking built from
      the request and the quote. */
  lemma CreateSucceeds(courts: map<CourtId, Court>, equipment: map<EquipmentId, Equipment>, coaches: map<CoachId, Coach>,
                       rules: seq<PricingRule>, bookings: seq<Booking>, cal: Calendar, req: BookingRequest)
    requires Create(courts, equipment, coaches, rules, bookings, cal, req).result.Created?
    ensures var o := Create(courts, equipment, coaches, rules, bookings, cal, req);
      var b := o.result.booking;
      var quote := Quote(courts, equipment, coaches, rules, cal, req.resources);
      && quote.Success?
      && o.bookings == bookings + [b]
      && b.id == |bookings| && b.status == Confirmed
      && b.userId == req.userId && b.court == req.resources.courtId
      && b.startTime == req.resources.startTime && b.endTime == req.resources.endTime
      && b.customerName == req.customerName && b.customerEmail == req.customerEmail && b.customerPhone == req.customerPhone
      && b.pricing == PricingFields(quote.value.courtBasePrice, quote.value.courtMultiplier, quote.value.courtPrice,
                                    quote.value.equipmentPrice, quote.value.coachPrice, quote.value.subtotal,
                                    quote.value.tax, quote.value.totalPrice, quote.value.appliedRules)
      && b.equipment == Snapshot(equipment, req.resources.equipment)
      && b.coach.coachId == req.resources.coachId
      && b.coach.pricePerHour == (if req.resources.coachId.Some? && req.resources.coachId.value in coaches
                                  then coaches[req.resources.coachId.value].pricePerHour else 0.0)
      && (forall x :: x in equipment ==> QtyLines(b.equipment, x) == QtyRequested(req.resources.equipment, x))
  {
    CreatedOutcome(courts, equipment, coaches, rules, bookings, cal, req);
    var quote := Quote(courts, equipment, coaches, rules, cal, req.resources).value;
    NewBookingFields(|bookings|, req, equipment, quote);
    QuoteCoachDetails(courts, equipment, coaches, rules, cal, req.resources);
  }

  /** A successful create takes each existing item's requested total off its
      stock and leaves every other field of the stock alone. */
  lemma CreateTakesStock(courts: map<CourtId, Court>, equipment: map<EquipmentId, Equipment>, coaches: map<CoachId, Coach>,
                         rules: seq<PricingRule>, bookings: seq<Booking>, cal: Calendar, req: BookingRequest)
    requires Create(courts, equipment, coaches, rules, bookings, cal, req).result.Created?
    ensures var o := Create(courts, equipment, coaches, rules, bookings, cal, req);
      && o.equipment.Keys == equipment.Keys
      && (forall x :: x in equipment ==>
            o.equipment[x] == equipment[x].(availableQuantity := equipment[x].availableQuantity - QtyRequested(req.resources.equipment, x)))
  {
    CreatedOutcome(courts, equipment, coaches, rules, bookings, cal, req);
    DecrementedSpec(equipment, req.resources.equipment);
  }

  /** Appending a valid, non-empty booking numbered next keeps the invariant
      when no confirmed booking of its court, or of its coach, overlaps it. */
  lemma AppendPreservesInvariant(bookings: seq<Booking>, b: Booking)
    requires StoreInvariant(bookings)
    requires b.id == |bookings| && BookingSchemaValid(b) && b.startTime < b.endTime
    requires forall i :: 0 <= i < |bookings| && bookings[i].status == Confirmed && bookings[i].court == b.court ==>
               !CheckTimeOverlap(bookings[i].startTime, bookings[i].endTime, b.startTime, b.endTime)
    requires forall i :: (0 <= i < |bookings| && bookings[i].status == Confirmed &&
                          bookings[i].coach.coachId.Some? && bookings[i].coach.coachId == b.coach.coachId) ==>
               !CheckTimeOverlap(bookings[i].startTime, bookings[i].endTime, b.startTime, b.endTime)
    ensures StoreInvariant(bookings + [b])
  {
    var all := bookings + [b];
    assert forall i :: 0 <= i < |bookings| ==> all[i] == bookings[i];
    assert all[|bookings|] == b;
  }

  /** A court the check finds available has no confirmed booking overlapping
      the request. */
  lemma FreeCourtHasNoClash(courts: map<CourtId, Court>, bookings: seq<Booking>, courtId: CourtId, s: int, e: int)
    requires s < e && NonEmptyIntervals(bookings)
    requires CheckCourtAvailability(courts, bookings, courtId, s, e, None) == Available
    ensures forall i :: 0 <= i < |bookings| && bookings[i].status == Confirmed && bookings[i].court == courtId ==>
              !CheckTimeOverlap(bookings[i].startTime, bookings[i].endTime, s, e)
  {
    CourtAvailableIff(courts, bookings, courtId, s, e, None);
  }

  /** A coach the check finds available has no confirmed booking overlapping
      the request. */
  lemma FreeCoachHasNoClash(coaches: map<CoachId, Coach>, bookings: seq<Booking>, cal: Calendar, c: CoachId, s: int, e: int)
    requires s < e && NonEmptyIntervals(bookings)
    requires CheckCoachAvailability(coaches, bookings, cal, Some(c), s, e, None) == Available
    ensures forall i :: 0 <= i < |bookings| && bookings[i].status == Confirmed && bookings[i].coach.coachId == Some(c) ==>
              !CheckTimeOverlap(bookings[i].startTime, bookings[i].endTime, s, e)
  {
    CoachAvailableIff(coaches, bookings, cal, c, s, e, None);
    forall i | 0 <= i < |bookings| && bookings[i].status == Confirmed && bookings[i].coach.coachId == Some(c)
      ensures !CheckTimeOverlap(bookings[i].startTime, bookings[i].endTime, s, e)
    {
      assert !Conflicts(bookings[i], s, e, None);
      QueryMatchesOverlap(bookings[i].startTime, bookings[i].endTime, s, e);
    }
  }

  /** A create keeps the store invariant: the new booking has a positive
      duration (pricing refused the rest), and the availability check has
      ruled out an overlapping confirmed booking of its court or its coach. */
  lemma CreatePreservesInvariant(courts: map<CourtId, Court>, equipment: map<EquipmentId, Equipment>, coaches: map<CoachId, Coach>,
                                 rules: seq<PricingRule>, bookings: seq<Booking>, cal: Calendar, req: BookingRequest)
    requires StoreInvariant(bookings)
    ensures StoreInvariant(Create(courts, equipment, coaches, rules, bookings, cal, req).bookings)
  {
    var o := Create(courts, equipment, coaches, rules, bookings, cal, req);
    if o.result.Created? {
      var r := req.resources;
      QuoteFailures(courts, equipment, coaches, rules, cal, r);
      ValidIffPositiveDuration(r.startTime, r.endTime);
      MultiAvailableIff(courts, equipment, coaches, bookings, cal, r, None);
      FreeCourtHasNoClash(courts, bookings, r.courtId, r.startTime, r.endTime);
      if r.coachId.Some? {
        FreeCoachHasNoClash(coaches, bookings, cal, r.coachId.value, r.startTime, r.endTime);
      }
      AppendPreservesInvariant(bookings, o.result.booking);
    }
  }

  /** Decrementing distinct items that the availability rule let through
      keeps stock non-negative. */
  lemma DecrementOfSuppliableNonNegative(equipment: map<EquipmentId, Equipment>, bookings: seq<Booking>,
                                         items: seq<EquipmentRequest>, s: int, e: int)
    requires PositiveQuantities(bookings)
    requires DistinctItems(items)
    requires forall x :: x in equipment ==> equipment[x].availableQuantity >= 0
    requires forall k :: 0 <= k < |items| ==> ItemSuppliable(equipment, bookings, items[k], s, e, None)
    ensures forall x :: x in Decremented(equipment, items) ==> Decremented(equipment, items)[x].availableQuantity >= 0
  {
    DecrementedSpec(equipment, items);
    forall x | x in equipment ensures Decremented(equipment, items)[x].availableQuantity >= 0 {
      QtyRequestedDistinct(items, x);
      if k :| 0 <= k < |items| && items[k].equipmentId == x {
        assert ItemSuppliable(equipment, bookings, items[k], s, e, None);
        TotalBookedNonNegative(bookings, x, s, e, None);
      }
    }
  }

  /** With distinct items in the request and non-negative stock before, a
      successful create leaves every available quantity non-negative: the
      check found each item's available quantity at least its request plus
      the quantities of the overlapping bookings, which are positive. */
  lemma CreateKeepsStockNonNegative(courts: map<CourtId, Court>, equipment: map<EquipmentId, Equipment>, coaches: map<CoachId, Coach>,
                                    rules: seq<PricingRule>, bookings: seq<Booking>, cal: Calendar, req: BookingRequest)
    requires StoreInvariant(bookings)
    requires DistinctItems(req.resources.equipment)
    requires forall x :: x in equipment ==> equipment[x].availableQuantity >= 0
    ensures var o := Create(courts, equipment, coaches, rules, bookings, cal, req);
      forall x :: x in o.equipment ==> o.equipment[x].availableQuantity >= 0
  {
    var r := req.resources;
    MultiAvailableIff(courts, equipment, coaches, bookings, cal, r, None);
    assert PositiveQuantities(bookings) by {
      forall i, k | 0 <= i < |bookings| && 0 <= k < |bookings[i].equipment|
        ensures bookings[i].equipment[k].quantity >= 1
      {
        assert BookingSchemaValid(bookings[i]);
      }
    }
    if MultiResourceReport(courts, equipment, coaches, bookings, cal, r, None).available {
      DecrementOfSuppliableNonNegative(equipment, bookings, r.equipment, r.startTime, r.endTime);
    }
  }

  lemma {:induction false} FirstLineOfDistinct(lines: seq<EquipmentLine>, k: nat)
    requires k < |lines|
    requires forall i, j :: 0 <= i < j < |lines| ==> lines[i].equipmentId != lines[j].equipmentId
    ensures FirstLineIndex(lines, lines[k].equipmentId) == k
  {
  }

  /** The counting behind `CreateCountsStockTwice`, for a booking whose
      lines snapshot distinct requested items that all exist. */
  lemma SnapshotCountedTwice(equipment: map<EquipmentId, Equipment>, bookings: seq<Booking>, items: seq<EquipmentRequest>,
                             b: Booking, k: nat, s: int, e: int)
    requires DistinctItems(items) && k < |items|
    requires forall i :: 0 <= i < |items| ==> items[i].equipmentId in equipment
    requires b.equipment == Snapshot(equipment, items) && b.status == Confirmed
    requires QueryOverlap(b.startTime, b.endTime, s, e)
    ensures var x := items[k].equipmentId;
      && x in Decremented(equipment, items)
      && Remaining(Decremented(equipment, items), bookings + [b], x, s, e, None)
         == Remaining(equipment, bookings, x, s, e, None) - 2 * items[k].quantity
  {
    var x := items[k].equipmentId;
    DecrementedSpec(equipment, items);
    QtyRequestedDistinct(items, x);
    SnapshotSpec(equipment, items);
    var lines := b.equipment;
    assert forall i, j :: 0 <= i < j < |lines| ==> lines[i].equipmentId != lines[j].equipmentId by {
      forall i, j | 0 <= i < j < |lines| ensures lines[i].equipmentId != lines[j].equipmentId {
        assert lines[i].equipmentId == items[i].equipmentId && lines[j].equipmentId == items[j].equipmentId;
      }
    }
    FirstLineOfDistinct(lines, k);
    assert BookedBy(b, x, s, e, None) == items[k].quantity;
    assert (bookings + [b])[..|bookings|] == bookings;
  }

  /** Stock is counted twice. After a successful create, a request for one
      of its items over an interval its booking overlaps sees the booked
      quantity subtracted twice: once from `availableQuantity` by the create
      and once more as an overlapping booking. */
  lemma CreateCountsStockTwice(courts: map<CourtId, Court>, equipment: map<EquipmentId, Equipment>, coaches: map<CoachId, Coach>,
                               rules: seq<PricingRule>, bookings: seq<Booking>, cal: Calendar, req: BookingRequest,
                               k: nat, s: int, e: int)
    requires Create(courts, equipment, coaches, rules, bookings, cal, req).result.Created?
    requires DistinctItems(req.resources.equipment)
    requires k < |req.resources.equipment|
    requires QueryOverlap(req.resources.startTime, req.resources.endTime, s, e)
    ensures var o := Create(courts, equipment, coaches, rules, bookings, cal, req);
      var x := req.resources.equipment[k].equipmentId;
      && x in equipment && x in o.equipment
      && Remaining(o.equipment, o.bookings, x, s, e, None)
         == Remaining(equipment, bookings, x, s, e, None) - 2 * req.resources.equipment[k].quantity
  {
    var r := req.resources;
    MultiAvailableIff(courts, equipment, coaches, bookings, cal, r, None);
    assert forall i :: 0 <= i < |r.equipment| ==> r.equipment[i].equipmentId in equipment by {
      forall i | 0 <= i < |r.equipment| ensures r.equipment[i].equipmentId in equipment {
        assert ItemSuppliable(equipment, bookings, r.equipment[i], r.startTime, r.endTime, None);
      }
    }
    var o := Create(courts, equipment, coaches, rules, bookings, cal, req);
    SnapshotCountedTwice(equipment, bookings, r.equipment, o.result.booking, k, s, e);
  }

  // ---------------------------------------------------------------------
  // Cancel
  // ---------------------------------------------------------------------

  /** Cancel's guards run in order: a missing booking, then a different
      owner (there is no admin bypass), then a booking already cancelled;
      each failure leaves the store as it was. Only `cancelled` is refused,
      so a completed booking can be cancelled. A successful cancel marks
      exactly that booking cancelled and gives each of its items its booked
      quantity back. */
  lemma CancelOutcomes(bookings: seq<Booking>, equipment: map<EquipmentId, Equipment>, id: BookingId, userId: string)
    ensures var c := Cancel(bookings, equipment, id, userId);
      && (c.result.CancelFailed? ==> c.bookings == bookings && c.equipment == equipment)
      && (id >= |bookings| ==> c.result == CancelFailed("Booking not found"))
      && (id < |bookings| && bookings[id].userId != userId ==>
            c.result == CancelFailed("Not authorized to cancel this booking"))
      && (id < |bookings| && bookings[id].userId == userId && bookings[id].status == Cancelled ==>
            c.result == CancelFailed("Booking is already cancelled"))
      && (c.result.CancelSucceeded? <==>
            id < |bookings| && bookings[id].userId == userId && bookings[id].status != Cancelled)
      && (c.result.CancelSucceeded? ==>
            && c.result.booking == bookings[id].(status := Cancelled)
            && |c.bookings| == |bookings|
            && c.bookings[id] == c.result.booking
            && (forall i :: 0 <= i < |bookings| && i != id ==> c.bookings[i] == bookings[i])
            && c.equipment.Keys == equipment.Keys
            && (forall x :: x in equipment ==>
                  c.equipment[x] == equipment[x].(availableQuantity := equipment[x].availableQuantity
                                                                       + QtyLines(bookings[id].equipment, x))))
  {
    if id < |bookings| {
      RestoredSpec(equipment, bookings[id].equipment);
    }
  }

  /** A completed booking passes cancel's guards. */
  lemma CompletedBookingCanBeCancelled(bookings: seq<Booking>, equipment: map<EquipmentId, Equipment>, id: BookingId)
    requires id < |bookings| && bookings[id].status == Completed
    ensures Cancel(bookings, equipment, id, bookings[id].userId).result == CancelSucceeded(bookings[id].(status := Cancelled))
  {
  }

  /** A cancel keeps the store invariant: it only takes a booking out of the
      confirmed ones. */
  lemma CancelPreservesInvariant(bookings: seq<Booking>, equipment: map<EquipmentId, Equipment>, id: BookingId, userId: string)
    requires StoreInvariant(bookings)
    ensures StoreInvariant(Cancel(bookings, equipment, id, userId).bookings)
  {
    var c := Cancel(bookings, equipment, id, userId);
    if c.result.CancelSucceeded? {
      var all := c.bookings;
      assert forall i :: 0 <= i < |all| ==> all[i] == if i == id then bookings[id].(status := Cancelled) else bookings[i];
      assert NoCourtClash(all) by {
        forall i, j | 0 <= i < j < |all| && all[i].status == Confirmed && all[j].status == Confirmed
                      && all[i].court == all[j].court
          ensures !CheckTimeOverlap(all[i].startTime, all[i].endTime, all[j].startTime, all[j].endTime)
        {
          assert all[i] == bookings[i] && all[j] == bookings[j];
        }
      }
      assert NoCoachClash(all) by {
        forall i, j | 0 <= i < j < |all| && all[i].status == Confirmed && all[j].status == Confirmed
                      && all[i].coach.coachId.Some? && all[i].coach.coachId == all[j].coach.coachId
          ensures !CheckTimeOverlap(all[i].startTime, all[i].endTime, all[j].startTime, all[j].endTime)
        {
          assert all[i] == bookings[i] && all[j] == bookings[j];
        }
      }
    }
  }

  // ---------------------------------------------------------------------
  // Create and cancel together
  // ---------------------------------------------------------------------

  /** Giving back the snapshot of a request undoes the request's decrements. */
  lemma RestoreUndoesDecrement(equipment: map<EquipmentId, Equipment>, items: seq<EquipmentRequest>)
    ensures Restored(Decremented(equipment, items), Snapshot(equipment, items)) == equipment
  {
    var lines := Snapshot(equipment, items);
    var taken := Decremented(equipment, items);
    DecrementedSpec(equipment, items);
    SnapshotSpec(equipment, items);
    RestoredSpec(taken, lines);
    assert forall x :: x in equipment ==> Restored(taken, lines)[x] == equipment[x];
  }

  /** Cancelling the booking a create just made succeeds for its owner and
      puts every available quantity back exactly where it was. */
  lemma CreateThenCancelRestoresStock(courts: map<CourtId, Court>, equipment: map<EquipmentId, Equipment>, coaches: map<CoachId, Coach>,
                                      rules: seq<PricingRule>, bookings: seq<Booking>, cal: Calendar, req: BookingRequest)
    requires Create(courts, equipment, coaches, rules, bookings, cal, req).result.Created?
    ensures var o := Create(courts, equipment, coaches, rules, bookings, cal, req);
      var c := Cancel(o.bookings, o.equipment, |bookings|, req.userId);
      && c.result == CancelSucceeded(o.result.booking.(status := Cancelled))
      && c.bookings == bookings + [o.result.booking.(status := Cancelled)]
      && c.equipment == equipment
  {
    CreatedOutcome(courts, equipment, coaches, rules, bookings, cal, req);
    RestoreUndoesDecrement(equipment, req.resources.equipment);
    var o := Create(courts, equipment, coaches, rules, bookings, cal, req);
    var b := o.result.booking;
    assert (bookings + [b])[|bookings|] == b;
  }

  lemma {:induction false} OutstandingAppend(bookings: seq<Booking>, b: Booking, x: EquipmentId)
    ensures Outstanding(bookings + [b], x) == Outstanding(bookings, x) + (if b.status != Cancelled then QtyLines(b.equipment, x) else 0)
  {
    assert (bookings + [b])[..|bookings|] == bookings;
  }

  lemma {:induction false} OutstandingOfCancelled(bookings: seq<Booking>, id: nat, x: EquipmentId)
    requires id < |bookings| && bookings[id].status != Cancelled
    ensures Outstanding(bookings[id := bookings[id].(status := Cancelled)], x)
            == Outstanding(bookings, x) - QtyLines(bookings[id].equipment, x)
    decreases |bookings|
  {
    var n := |bookings| - 1;
    var updated := bookings[id := bookings[id].(status := Cancelled)];
    if id < n {
      OutstandingOfCancelled(bookings[..n], id, x);
      assert updated[..n] == bookings[..n][id := bookings[id].(status := Cancelled)];
    } else {
      assert updated[..n] == bookings[..n];
    }
  }

  /** Stock is conserved by a create: for every item, available quantity
      plus the quantity held by bookings that are not cancelled is
      unchanged. */
  lemma CreateConservesStock(courts: map<CourtId, Court>, equipment: map<EquipmentId, Equipment>, coaches: map<CoachId, Coach>,
                             rules: seq<PricingRule>, bookings: seq<Booking>, cal: Calendar, req: BookingRequest)
    ensures var o := Create(courts, equipment, coaches, rules, bookings, cal, req);
      && o.equipment.Keys == equipment.Keys
      && forall x :: x in equipment ==>
           o.equipment[x].availableQuantity + Outstanding(o.bookings, x)
           == equipment[x].availableQuantity + Outstanding(bookings, x)
  {
    var o := Create(courts, equipment, coaches, rules, bookings, cal, req);
    if o.result.Created? {
      CreateSucceeds(courts, equipment, coaches, rules, bookings, cal, req);
      CreateTakesStock(courts, equipment, coaches, rules, bookings, cal, req);
      forall x | x in equipment
        ensures o.equipment[x].availableQuantity + Outstanding(o.bookings, x)
                == equipment[x].availableQuantity + Outstanding(bookings, x)
      {
        OutstandingAppend(bookings, o.result.booking, x);
      }
    }
  }

  /** Stock is conserved by a cancel in the same sense. */
  lemma CancelConservesStock(bookings: seq<Booking>, equipment: map<EquipmentId, Equipment>, id: BookingId, userId: string)
    ensures var c := Cancel(bookings, equipment, id, userId);
      && c.equipment.Keys == equipment.Keys
      && forall x :: x in equipment ==>
           c.equipment[x].availableQuantity + Outstanding(c.bookings, x)
           == equipment[x].availableQuantity + Outstanding(bookings, x)
  {
    CancelOutcomes(bookings, equipment, id, userId);
    var c := Cancel(bookings, equipment, id, userId);
    if c.result.CancelSucceeded? {
      forall x | x in equipment
        ensures c.equipment[x].availableQuantity + Outstanding(c.bookings, x)
                == equipment[x].availableQuantity + Outstanding(bookings, x)
      {
        OutstandingOfCancelled(bookings, id, x);
      }
    }
  }

  // ---------------------------------------------------------------------
  // Two consequences of the stock rules, on concrete inputs
  // ---------------------------------------------------------------------

  const Rackets := Equipment("Badminton Racket", Racket, 5.0, 3, 3, true, "")

  /** The items of a request are checked one by one against the same stock,
      so a request naming an item twice passes when each entry alone fits:
      three rackets in stock, two entries of two, and the create succeeds
      and leaves -1. */
  lemma DuplicateRequestCanOverdraw(cal: Calendar, t: int)
    ensures var req := BookingRequest(ResourceRequest(0, t, t + MsPerHour, [EquipmentRequest(7, 2), EquipmentRequest(7, 2)], None),
                                      "u1", "Ann", "ann@example.com", "555-0100");
      var o := Create(map[0 := IndoorCourt1], map[7 := Rackets], map[], [], [], cal, req);
      o.result.Created? && 7 in o.equipment && o.equipment[7].availableQuantity == -1
  {
    var items := [EquipmentRequest(7, 2), EquipmentRequest(7, 2)];
    var r := ResourceRequest(0, t, t + MsPerHour, items, None);
    var req := BookingRequest(r, "u1", "Ann", "ann@example.com", "555-0100");
    var courts: map<CourtId, Court> := map[0 := IndoorCourt1];
    var equipment: map<EquipmentId, Equipment> := map[7 := Rackets];
    var coaches: map<CoachId, Coach> := map[];
    DuplicatePassesChecks(cal, t);
    QuoteFailures(courts, equipment, coaches, [], cal, r);
    ValidIffPositiveDuration(t, t + MsPerHour);
    var quote := Quote(courts, equipment, coaches, [], cal, r).value;
    DuplicateBookingValid(req, quote);
    CreateWhenChecksPass(courts, equipment, coaches, [], [], cal, req);
    DuplicateOverdraws();
  }

  /** Each entry of two rackets fits the three in stock on its own. */
  lemma DuplicatePassesChecks(cal: Calendar, t: int)
    ensures MultiResourceReport(map[0 := IndoorCourt1], map[7 := Rackets], map[], [], cal,
                                ResourceRequest(0, t, t + MsPerHour, [EquipmentRequest(7, 2), EquipmentRequest(7, 2)], None),
                                None).available
  {
    var r := ResourceRequest(0, t, t + MsPerHour, [EquipmentRequest(7, 2), EquipmentRequest(7, 2)], None);
    var courts: map<CourtId, Court> := map[0 := IndoorCourt1];
    var equipment: map<EquipmentId, Equipment> := map[7 := Rackets];
    var coaches: map<CoachId, Coach> := map[];
    var none: seq<Booking> := [];
    CourtAvailableIff(courts, none, 0, t, t + MsPerHour, None);
    MultiAvailableIff(courts, equipment, coaches, none, cal, r, None);
    assert ItemSuppliable(equipment, none, r.equipment[0], t, t + MsPerHour, None);
    assert ItemSuppliable(equipment, none, r.equipment[1], t, t + MsPerHour, None);
  }

  /** The booking built for the duplicate request passes validation. */
  lemma DuplicateBookingValid(req: BookingRequest, quote: Breakdown)
    requires req.resources.equipment == [EquipmentRequest(7, 2), EquipmentRequest(7, 2)]
    requires req.userId == "u1" && req.customerName == "Ann"
    requires req.customerEmail == "ann@example.com" && req.customerPhone == "555-0100"
    ensures BookingSchemaValid(NewBooking(0, req, map[7 := Rackets], quote))
  {
    SnapshotSpec(map[7 := Rackets], req.resources.equipment);
  }

  /** Both entries are taken off the three rackets. */
  lemma DuplicateOverdraws()
    ensures var d := Decremented(map[7 := Rackets], [EquipmentRequest(7, 2), EquipmentRequest(7, 2)]);
      7 in d && d[7].availableQuantity == -1
  {
    var items := [EquipmentRequest(7, 2), EquipmentRequest(7, 2)];
    DecrementedSpec(map[7 := Rackets], items);
    assert items[..1] == [EquipmentRequest(7, 2)];
    assert items[..1][..0] == [];
  }

  /** The increments bypass the pre-save hook, so a cancel can leave more
      available than in total: after the total is lowered to 3 while two
      units are booked, giving them back makes 5 available of 3. */
  lemma RestoreMayExceedTotal()
    ensures var e := Rackets;
      var restored := Restored(map[7 := e], [EquipmentLine(7, 2, 5.0)]);
      && SchemaValid(e) && e.availableQuantity <= e.totalQuantity
      && restored[7].availableQuantity == 5 && restored[7].availableQuantity > restored[7].totalQuantity
      && PreSave(restored[7]) != restored[7]
  {
    var lines := [EquipmentLine(7, 2, 5.0)];
    assert lines[..0] == [];
  }

  /** The availability check counts only the first line for an item in a
      stored booking, while the store took every line out of stock: a
      booking holding item 7 on two lines, 1 and 2 units, counts as 1 in
      the check and holds 3. */
  lemma OnlyFirstLineCounted(s: int, e: int)
    requires s < e
    ensures var b := Booking(0, "u1", 0, s, e, [EquipmentLine(7, 1, 5.0), EquipmentLine(7, 2, 5.0)], CoachLine(None, 0.0),
                             PricingFields(0.0, 1.0, 0.0, 0.0, 0.0, 0.0, 0.0, 0.0, []), Confirmed, "Ann", "ann@example.com", "555-0100");
      TotalBooked([b], 7, s, e, None) == 1 && QtyLines(b.equipment, 7) == 3
  {
    var b := Booking(0, "u1", 0, s, e, [EquipmentLine(7, 1, 5.0), EquipmentLine(7, 2, 5.0)], CoachLine(None, 0.0),
                     PricingFields(0.0, 1.0, 0.0, 0.0, 0.0, 0.0, 0.0, 0.0, []), Confirmed, "Ann", "ann@example.com", "555-0100");
    assert [b][..0] == [];
    assert b.equipment[..1] == [EquipmentLine(7, 1, 5.0)];
    assert b.equipment[..1][..0] == [];
  }

  // ---------------------------------------------------------------------
  // The store
  // ---------------------------------------------------------------------

  /** The booking store: the collections the two operations read, and the
      bookings and stock they write in place. */
  class BookingStore {
    var courts: map<CourtId, Court>
    var equipment: map<EquipmentId, Equipment>
    var coaches: map<CoachId, Coach>
    var rules: seq<PricingRule>
    var bookings: seq<Booking>
    const cal: Calendar

    ghost predicate Valid()
      reads this
    {
      StoreInvariant(bookings)
    }

    /** An empty store over the given catalogue. */
    constructor (courts: map<CourtId, Court>, equipment: map<EquipmentId, Equipment>, coaches: map<CoachId, Coach>,
                 rules: seq<PricingRule>, cal: Calendar)
      ensures Valid()
      ensures this.courts == courts && this.equipment == equipment && this.coaches == coaches
      ensures this.rules == rules && this.cal == cal && bookings == []
    {
      this.courts, this.equipment, this.coaches, this.rules, this.cal := courts, equipment, coaches, rules, cal;
      bookings := [];
    }

    /** `createBookingWithTransaction`: check, price, snapshot, save, then
        decrement the stock of each requested item. */
    method CreateBooking(req: BookingRequest) returns (r: CreateResult)
      requires Valid()
      modifies this`bookings, this`equipment
      ensures Valid()
      ensures Create(courts, old(equipment), coaches, rules, old(bookings), cal, req) == CreateOutcome(r, bookings, equipment)
    {
      r := PrepareBooking(req);
      if r.Created? {
        CreatePreservesInvariant(courts, equipment, coaches, rules, bookings, cal, req);
        bookings := bookings + [r.booking];
        TakeOutOfStock(req.resources.equipment);
      }
    }

    /** The create's steps before the save: the availability check, the
        quote, the price snapshot and the document's validation. A created
        result is the document to save; the others are the create's answer. */
    method PrepareBooking(req: BookingRequest) returns (r: CreateResult)
      ensures r.NotCreated? ==> Create(courts, equipment, coaches, rules, bookings, cal, req) == CreateOutcome(r, bookings, equipment)
      ensures r.Created? ==> Create(courts, equipment, coaches, rules, bookings, cal, req)
                             == CreateOutcome(r, bookings + [r.booking], Decremented(equipment, req.resources.equipment))
    {
      var res := req.resources;
      var check := CheckMultiResourceAvailability(courts, equipment, coaches, bookings, cal, res, None);
      if !check.available {
        return NotCreated("Booking not available", Join(check.errors, ", "));
      }
      var pricing := CalculateTotalPrice(courts, equipment, coaches, rules, cal, res);
      if pricing.Failure? {
        return NotCreated(pricing.error, "Failed to create booking");
      }
      var quote := pricing.value;

      var equipmentWithPrices := SnapshotPrices(res.equipment);

      var coachPrice := if res.coachId.Some? && quote.coachDetails.Some? then quote.coachDetails.value.pricePerHour else 0.0;
      var booking := Booking(|bookings|, req.userId, res.courtId, res.startTime, res.endTime, equipmentWithPrices,
                             CoachLine(res.coachId, coachPrice), PricingOf(quote), Confirmed,
                             req.customerName, req.customerEmail, req.customerPhone);
      assert booking == NewBooking(|bookings|, req, equipment, quote);
      if !BookingSchemaValid(booking) {
        return NotCreated("Booking validation failed", "Failed to create booking");
      }
      CreateWhenChecksPass(courts, equipment, coaches, rules, bookings, cal, req);
      r := Created(booking);
    }

    /** The `equipmentWithPrices` loop: look each requested item up and keep
        the ones that exist, with their current price. */
    method SnapshotPrices(items: seq<EquipmentRequest>) returns (lines: seq<EquipmentLine>)
      ensures lines == Snapshot(equipment, items)
    {
      lines := [];
      for i := 0 to |items|
        invariant lines == Snapshot(equipment, items[..i])
      {
        var item := items[i];
        if item.equipmentId in equipment {
          lines := lines + [EquipmentLine(item.equipmentId, item.quantity, equipment[item.equipmentId].pricePerHour)];
        }
        assert items[..i + 1][..i] == items[..i];
      }
      assert items[..|items|] == items;
    }

    /** The create's `$inc` loop: one decrement per request entry. */
    method TakeOutOfStock(items: seq<EquipmentRequest>)
      modifies this`equipment
      ensures equipment == Decremented(old(equipment), items)
    {
      for i := 0 to |items|
        invariant equipment == Decremented(old(equipment), items[..i])
      {
        var item := items[i];
        if item.equipmentId in equipment {
          equipment := equipment[item.equipmentId := equipment[item.equipmentId].(
            availableQuantity := equipment[item.equipmentId].availableQuantity - item.quantity)];
        }
        assert items[..i + 1][..i] == items[..i];
      }
      assert items[..|items|] == items;
    }

    /** `cancelBooking`: the guards, the status flip, then the stock of each
        booked item given back. */
    method CancelBooking(id: BookingId, userId: string) returns (r: CancelResult)
      requires Valid()
      modifies this`bookings, this`equipment
      ensures Valid()
      ensures Cancel(old(bookings), old(equipment), id, userId) == CancelOutcome(r, bookings, equipment)
    {
      if id >= |bookings| {
        return CancelFailed("Booking not found");
      }
      var booking := bookings[id];
      if booking.userId != userId {
        return CancelFailed("Not authorized to cancel this booking");
      }
      if booking.status == Cancelled {
        return CancelFailed("Booking is already cancelled");
      }
      CancelPreservesInvariant(bookings, equipment, id, userId);
      booking := booking.(status := Cancelled);
      bookings := bookings[id := booking];

      PutBackInStock(booking.equipment);
      r := CancelSucceeded(booking);
    }

    /** The cancel's `$inc` loop: one increment per stored line. */
    method PutBackInStock(lines: seq<EquipmentLine>)
      modifies this`equipment
      ensures equipment == Restored(old(equipment), lines)
    {
      for i := 0 to |lines|
        invariant equipment == Restored(old(equipment), lines[..i])
      {
        var line := lines[i];
        if line.equipmentId in equipment {
          equipment := equipment[line.equipmentId := equipment[line.equipmentId].(
            availableQuantity := equipment[line.equipmentId].availableQuantity + line.quantity)];
        }
        assert lines[..i + 1][..i] == lines[..i];
      }
      assert lines[..|lines|] == lines;
    }

    /** Saving an equipment document: the schema's validators, then the
        pre-save hook on the document, then the write. */
    method SaveEquipment(id: EquipmentId, doc: EquipmentDocument) returns (saved: bool)
      modifies this`equipment, doc`availableQuantity
      ensures saved == SchemaValid(old(doc.Value()))
      ensures saved ==> doc.Value() == PreSave(old(doc.Value())) && equipment == old(equipment)[id := PreSave(old(doc.Value()))]
      ensures !saved ==> doc.Value() == old(doc.Value()) && equipment == old(equipment)
    {
      if !SchemaValid(doc.Value()) {
        return false;
      }
      doc.PreSaveHook();
      equipment := equipment[id := doc.Value()];
      saved := true;
    }
  }
}

/** The availability engine (backend/services/availabilityService.js):
    whether a court, a list of equipment requests and an optional coach are
    free for the requested interval. The booking store is a sequence in
    natural (insertion) order. */
module Availability {
  import opened Wrappers
  import opened JsStrings
  import opened TimeUtils
  import opened Models
  import opened EquipmentModel

  datatype Verdict = Available | Unavailable(reason: string)

  // ---------------------------------------------------------------------
  // The conflict query shared by the three checks
  // ---------------------------------------------------------------------

  /** The three `$or` clauses every conflict query uses, for a stored booking
      [bs, be) against the request [s, e): it starts inside the request, it
      ends inside the request, or it spans the request. */
  predicate QueryOverlap(bs: int, be: int, s: int, e: int) {
    || (bs < e && bs >= s)
    || (be > s && be <= e)
    || (bs <= s && be >= e)
  }

  /** For non-empty intervals the three clauses are the half-open overlap test. */
  lemma QueryMatchesOverlap(bs: int, be: int, s: int, e: int)
    requires bs < be && s < e
    ensures QueryOverlap(bs, be, s, e) == CheckTimeOverlap(bs, be, s, e)
  {
  }

  /** For a zero-length request at instant t they disagree exactly when t is
      an endpoint of the stored booking: the query reports a conflict there
      and the half-open test does not. */
  lemma ZeroLengthRequestDiffers(bs: int, be: int, t: int)
    requires bs < be
    ensures (QueryOverlap(bs, be, t, t) && !CheckTimeOverlap(bs, be, t, t)) <==> (t == bs || t == be)
    ensures CheckTimeOverlap(bs, be, t, t) ==> QueryOverlap(bs, be, t, t)
  {
  }

  /** The status filter `{ $in: ['confirmed', 'pending'] }`: of the statuses
      a booking can have, only a confirmed one blocks. */
  predicate Blocking(st: Status) {
    st == Confirmed
  }

  /** A stored booking that a conflict query returns: blocking status, an
      overlapping interval, and not the excluded id. */
  predicate Conflicts(b: Booking, s: int, e: int, exclude: Option<BookingId>) {
    && Blocking(b.status)
    && QueryOverlap(b.startTime, b.endTime, s, e)
    && (exclude.None? || b.id != exclude.value)
  }

  // ---------------------------------------------------------------------
  // Court
  // ---------------------------------------------------------------------

  predicate CourtBooked(bookings: seq<Booking>, courtId: CourtId, s: int, e: int, exclude: Option<BookingId>) {
    exists i :: 0 <= i < |bookings| && bookings[i].court == courtId && Conflicts(bookings[i], s, e, exclude)
  }

  /** `checkCourtAvailability`. */
  function CheckCourtAvailability(courts: map<CourtId, Court>, bookings: seq<Booking>, courtId: CourtId,
                                  s: int, e: int, exclude: Option<BookingId>): Verdict
  {
    if courtId !in courts then Unavailable("Court not found")
    else if !courts[courtId].isActive then Unavailable("Court is currently inactive")
    else if CourtBooked(bookings, courtId, s, e, exclude) then Unavailable("Court already booked for this time slot")
    else Available
  }

  /** Every stored booking has a non-empty interval. */
  predicate NonEmptyIntervals(bookings: seq<Booking>) {
    forall i :: 0 <= i < |bookings| ==> bookings[i].startTime < bookings[i].endTime
  }

  /** For a non-empty request against bookings with non-empty intervals, the
      court is available exactly when it exists, is active, and no confirmed
      booking of it (other than the excluded one) overlaps the request by the
      half-open rule. The missing and inactive cases are decided before any
      booking is looked at. */
  lemma CourtAvailableIff(courts: map<CourtId, Court>, bookings: seq<Booking>, courtId: CourtId,
                          s: int, e: int, exclude: Option<BookingId>)
    requires s < e && NonEmptyIntervals(bookings)
    ensures CheckCourtAvailability(courts, bookings, courtId, s, e, exclude) == Available <==>
      && courtId in courts && courts[courtId].isActive
      && forall i :: 0 <= i < |bookings| && bookings[i].court == courtId && Blocking(bookings[i].status)
                     && (exclude.None? || bookings[i].id != exclude.value)
                     ==> !CheckTimeOverlap(bookings[i].startTime, bookings[i].endTime, s, e)
    ensures courtId !in courts ==> CheckCourtAvailability(courts, bookings, courtId, s, e, exclude) == Unavailable("Court not found")
    ensures courtId in courts && !courts[courtId].isActive ==>
      CheckCourtAvailability(courts, bookings, courtId, s, e, exclude) == Unavailable("Court is currently inactive")
  {
    forall i | 0 <= i < |bookings|
      ensures QueryOverlap(bookings[i].startTime, bookings[i].endTime, s, e)
              == CheckTimeOverlap(bookings[i].startTime, bookings[i].endTime, s, e)
    {
      QueryMatchesOverlap(bookings[i].startTime, bookings[i].endTime, s, e);
    }
  }

  // ---------------------------------------------------------------------
  // Equipment
  // ---------------------------------------------------------------------

  /** Index of the first line for `id` (`Array.prototype.find`), or |lines|. */
  function FirstLineIndex(lines: seq<EquipmentLine>, id: EquipmentId): (k: nat)
    ensures k <= |lines|
    ensures forall j :: 0 <= j < k ==> lines[j].equipmentId != id
    ensures k < |lines| ==> lines[k].equipmentId == id
  {
    if |lines| == 0 then 0
    else if lines[0].equipmentId == id then 0
    else 1 + FirstLineIndex(lines[1..], id)
  }

  /** What one stored booking adds to `totalBooked` for `id`: the quantity of
      its first line for `id`, when the booking conflicts and references
      `id` at all. */
  function BookedBy(b: Booking, id: EquipmentId, s: int, e: int, exclude: Option<BookingId>): int {
    var k := FirstLineIndex(b.equipment, id);
    if Conflicts(b, s, e, exclude) && k < |b.equipment| then b.equipment[k].quantity else 0
  }

  /** `totalBooked`: the `reduce` over the conflicting bookings. */
  function TotalBooked(bookings: seq<Booking>, id: EquipmentId, s: int, e: int, exclude: Option<BookingId>): int
    decreases |bookings|
  {
    if |bookings| == 0 then 0
    else TotalBooked(bookings[..|bookings| - 1], id, s, e, exclude) + BookedBy(bookings[|bookings| - 1], id, s, e, exclude)
  }

  /** Every stored equipment line has a positive quantity. */
  predicate PositiveQuantities(bookings: seq<Booking>) {
    forall i, k :: 0 <= i < |bookings| && 0 <= k < |bookings[i].equipment| ==> bookings[i].equipment[k].quantity >= 1
  }

  lemma {:induction false} TotalBookedNonNegative(bookings: seq<Booking>, id: EquipmentId, s: int, e: int, exclude: Option<BookingId>)
    requires PositiveQuantities(bookings)
    ensures TotalBooked(bookings, id, s, e, exclude) >= 0
    decreases |bookings|
  {
    if |bookings| > 0 {
      var prefix := bookings[..|bookings| - 1];
      assert PositiveQuantities(prefix) by {
        forall i, k | 0 <= i < |prefix| && 0 <= k < |prefix[i].equipment|
          ensures prefix[i].equipment[k].quantity >= 1
        {
          assert prefix[i] == bookings[i];
        }
      }
      TotalBookedNonNegative(prefix, id, s, e, exclude);
    }
  }

  /** An entry of `unavailableItems`. */
  datatype UnavailableItem = UnavailableItem(
    id: EquipmentId,
    name: Option<string>,
    requested: Option<int>,
    available: Option<int>,
    reason: string)

  /** The stock left for a request's item after the conflicting bookings:
      `equipment.availableQuantity - totalBooked`. */
  function Remaining(equipment: map<EquipmentId, Equipment>, bookings: seq<Booking>, id: EquipmentId,
                     s: int, e: int, exclude: Option<BookingId>): int
    requires id in equipment
  {
    equipment[id].availableQuantity - TotalBooked(bookings, id, s, e, exclude)
  }

  /** The report for one request, or `None` when the item can be supplied. */
  function ItemReport(equipment: map<EquipmentId, Equipment>, bookings: seq<Booking>, req: EquipmentRequest,
                      s: int, e: int, exclude: Option<BookingId>): Option<UnavailableItem>
  {
    var id := req.equipmentId;
    if id !in equipment then Some(UnavailableItem(id, None, None, None, "Equipment not found"))
    else if !equipment[id].isActive then
      Some(UnavailableItem(id, Some(equipment[id].name), None, None, "Equipment is currently inactive"))
    else
      var left := Remaining(equipment, bookings, id, s, e, exclude);
      if left < req.quantity then
        Some(UnavailableItem(id, Some(equipment[id].name), Some(req.quantity), Some(left),
                             "Only " + IntToString(left) + " available"))
      else None
  }

  /** The request can be supplied: the item exists, is active, and what is
      left after the conflicting bookings covers the quantity. */
  predicate ItemSuppliable(equipment: map<EquipmentId, Equipment>, bookings: seq<Booking>, req: EquipmentRequest,
                           s: int, e: int, exclude: Option<BookingId>) {
    && req.equipmentId in equipment
    && equipment[req.equipmentId].isActive
    && Remaining(equipment, bookings, req.equipmentId, s, e, exclude) >= req.quantity
  }

  /** The reports of the failing requests, in request order. */
  function UnavailableItems(equipment: map<EquipmentId, Equipment>, bookings: seq<Booking>, reqs: seq<EquipmentRequest>,
                            s: int, e: int, exclude: Option<BookingId>): seq<UnavailableItem>
    decreases |reqs|
  {
    if |reqs| == 0 then []
    else
      var report := ItemReport(equipment, bookings, reqs[|reqs| - 1], s, e, exclude);
      UnavailableItems(equipment, bookings, reqs[..|reqs| - 1], s, e, exclude)
        + (if report.Some? then [report.value] else [])
  }

  datatype EquipmentCheck = EquipmentCheck(verdict: Verdict, unavailableItems: seq<UnavailableItem>)

  /** The value `checkEquipmentAvailability` returns. */
  function EquipmentReport(equipment: map<EquipmentId, Equipment>, bookings: seq<Booking>, reqs: seq<EquipmentRequest>,
                           s: int, e: int, exclude: Option<BookingId>): EquipmentCheck
  {
    if |reqs| == 0 then EquipmentCheck(Available, [])
    else
      var items := UnavailableItems(equipment, bookings, reqs, s, e, exclude);
      if |items| > 0 then EquipmentCheck(Unavailable("Some equipment items are not available"), items)
      else EquipmentCheck(Available, [])
  }

  lemma {:induction false} UnavailableItemsEmptyIff(equipment: map<EquipmentId, Equipment>, bookings: seq<Booking>,
                                                    reqs: seq<EquipmentRequest>, s: int, e: int, exclude: Option<BookingId>)
    ensures UnavailableItems(equipment, bookings, reqs, s, e, exclude) == [] <==>
      forall k :: 0 <= k < |reqs| ==> ItemSuppliable(equipment, bookings, reqs[k], s, e, exclude)
    ensures |UnavailableItems(equipment, bookings, reqs, s, e, exclude)| <= |reqs|
    decreases |reqs|
  {
    if |reqs| > 0 {
      var prefix := reqs[..|reqs| - 1];
      UnavailableItemsEmptyIff(equipment, bookings, prefix, s, e, exclude);
      assert forall k :: 0 <= k < |prefix| ==> prefix[k] == reqs[k];
    }
  }

  /** One request's report: none exactly when the request can be supplied;
      otherwise the first failing condition, in the order missing, inactive,
      short, with the stock left in the shortfall case. */
  lemma ItemReportCases(equipment: map<EquipmentId, Equipment>, bookings: seq<Booking>, req: EquipmentRequest,
                        s: int, e: int, exclude: Option<BookingId>)
    ensures var r := ItemReport(equipment, bookings, req, s, e, exclude);
      var id := req.equipmentId;
      && (r.None? <==> ItemSuppliable(equipment, bookings, req, s, e, exclude))
      && (id !in equipment ==> r == Some(UnavailableItem(id, None, None, None, "Equipment not found")))
      && (id in equipment && !equipment[id].isActive ==>
            r == Some(UnavailableItem(id, Some(equipment[id].name), None, None, "Equipment is currently inactive")))
      && (id in equipment && equipment[id].isActive && !ItemSuppliable(equipment, bookings, req, s, e, exclude) ==>
            var left := Remaining(equipment, bookings, id, s, e, exclude);
            && left < req.quantity
            && r == Some(UnavailableItem(id, Some(equipment[id].name), Some(req.quantity), Some(left),
                                         "Only " + IntToString(left) + " available")))
  {
  }

  /** The positions of the requests that cannot be supplied, in order. */
  function FailingIndices(equipment: map<EquipmentId, Equipment>, bookings: seq<Booking>, reqs: seq<EquipmentRequest>,
                          s: int, e: int, exclude: Option<BookingId>): seq<nat>
    decreases |reqs|
  {
    if |reqs| == 0 then []
    else
      FailingIndices(equipment, bookings, reqs[..|reqs| - 1], s, e, exclude)
        + (if ItemSuppliable(equipment, bookings, reqs[|reqs| - 1], s, e, exclude) then [] else [|reqs| - 1])
  }

  /** `FailingIndices` lists, in increasing order, exactly the positions of
      the requests that cannot be supplied. */
  lemma {:induction false} FailingIndicesSpec(equipment: map<EquipmentId, Equipment>, bookings: seq<Booking>,
                                              reqs: seq<EquipmentRequest>, s: int, e: int, exclude: Option<BookingId>)
    ensures var ix := FailingIndices(equipment, bookings, reqs, s, e, exclude);
      && (forall j :: 0 <= j < |ix| ==> ix[j] < |reqs|)
      && (forall j, j' :: 0 <= j < j' < |ix| ==> ix[j] < ix[j'])
      && (forall k :: 0 <= k < |reqs| ==> (k in ix <==> !ItemSuppliable(equipment, bookings, reqs[k], s, e, exclude)))
    decreases |reqs|
  {
    if |reqs| > 0 {
      var prefix := reqs[..|reqs| - 1];
      FailingIndicesSpec(equipment, bookings, prefix, s, e, exclude);
      assert forall k :: 0 <= k < |prefix| ==> prefix[k] == reqs[k];
    }
  }

  /** `unavailableItems` holds one entry per request that cannot be
      supplied, in request order: the `j`th entry is the report of the
      `j`th failing request. */
  lemma {:induction false} UnavailableItemsOfFailing(equipment: map<EquipmentId, Equipment>, bookings: seq<Booking>,
                                                     reqs: seq<EquipmentRequest>, s: int, e: int, exclude: Option<BookingId>)
    ensures var ix := FailingIndices(equipment, bookings, reqs, s, e, exclude);
      var items := UnavailableItems(equipment, bookings, reqs, s, e, exclude);
      && |items| == |ix|
      && forall j :: 0 <= j < |ix| ==> ix[j] < |reqs| && ItemReport(equipment, bookings, reqs[ix[j]], s, e, exclude) == Some(items[j])
    decreases |reqs|
  {
    if |reqs| > 0 {
      var prefix := reqs[..|reqs| - 1];
      UnavailableItemsOfFailing(equipment, bookings, prefix, s, e, exclude);
      FailingIndicesSpec(equipment, bookings, prefix, s, e, exclude);
      ItemReportCases(equipment, bookings, reqs[|reqs| - 1], s, e, exclude);
      assert forall k :: 0 <= k < |prefix| ==> prefix[k] == reqs[k];
    }
  }

  /** The equipment check passes exactly when every request can be supplied;
      otherwise it carries the reports of the failing requests (see
      `UnavailableItemsOfFailing`). */
  lemma EquipmentAvailableIff(equipment: map<EquipmentId, Equipment>, bookings: seq<Booking>,
                              reqs: seq<EquipmentRequest>, s: int, e: int, exclude: Option<BookingId>)
    ensures EquipmentReport(equipment, bookings, reqs, s, e, exclude).verdict == Available <==>
      forall k :: 0 <= k < |reqs| ==> ItemSuppliable(equipment, bookings, reqs[k], s, e, exclude)
    ensures EquipmentReport(equipment, bookings, reqs, s, e, exclude).verdict == Available <==>
      EquipmentReport(equipment, bookings, reqs, s, e, exclude).unavailableItems == []
    ensures var r := EquipmentReport(equipment, bookings, reqs, s, e, exclude);
      r.verdict != Available ==>
        && r.verdict == Unavailable("Some equipment items are not available")
        && r.unavailableItems == UnavailableItems(equipment, bookings, reqs, s, e, exclude)
  {
    UnavailableItemsEmptyIff(equipment, bookings, reqs, s, e, exclude);
  }

  /** `checkEquipmentAvailability`: one pass over the requests collecting the
      reports of those that cannot be supplied. */
  method CheckEquipmentAvailability(equipment: map<EquipmentId, Equipment>, bookings: seq<Booking>,
                                    reqs: seq<EquipmentRequest>, s: int, e: int, exclude: Option<BookingId>)
    returns (r: EquipmentCheck)
    ensures r == EquipmentReport(equipment, bookings, reqs, s, e, exclude)
  {
    if |reqs| == 0 {
      return EquipmentCheck(Available, []);
    }
    var unavailableItems: seq<UnavailableItem> := [];
    var i := 0;
    while i < |reqs|
      invariant 0 <= i <= |reqs|
      invariant unavailableItems == UnavailableItems(equipment, bookings, reqs[..i], s, e, exclude)
    {
      var request := reqs[i];
      var id := request.equipmentId;
      if id !in equipment {
        unavailableItems := unavailableItems + [UnavailableItem(id, None, None, None, "Equipment not found")];
      } else if !equipment[id].isActive {
        unavailableItems := unavailableItems + [UnavailableItem(id, Some(equipment[id].name), None, None, "Equipment is currently inactive")];
      } else {
        var totalBooked := TotalBooked(bookings, id, s, e, exclude);
        var availableQuantity := equipment[id].availableQuantity - totalBooked;
        if availableQuantity < request.quantity {
          unavailableItems := unavailableItems + [UnavailableItem(id, Some(equipment[id].name), Some(request.quantity),
                                                                  Some(availableQuantity), "Only " + IntToString(availableQuantity) + " available")];
        }
      }
      assert reqs[..i + 1][..i] == reqs[..i];
      i := i + 1;
    }
    assert reqs[..i] == reqs;
    if |unavailableItems| > 0 {
      r := EquipmentCheck(Unavailable("Some equipment items are not available"), unavailableItems);
    } else {
      r := EquipmentCheck(Available, []);
    }
  }

  // ---------------------------------------------------------------------
  // Coach
  // ---------------------------------------------------------------------

  const DayNames: seq<string> := ["Sunday", "Monday", "Tuesday", "Wednesday", "Thursday", "Friday", "Saturday"]

  /** Index of the first window on `day` (`Array.prototype.find`), or |windows|. */
  function FirstWindowIndex(windows: seq<Window>, day: int): (k: nat)
    ensures k <= |windows|
    ensures forall j :: 0 <= j < k ==> windows[j].dayOfWeek != day
    ensures k < |windows| ==> windows[k].dayOfWeek == day
  {
    if |windows| == 0 then 0
    else if windows[0].dayOfWeek == day then 0
    else 1 + FirstWindowIndex(windows[1..], day)
  }

  predicate CoachBooked(bookings: seq<Booking>, coachId: CoachId, s: int, e: int, exclude: Option<BookingId>) {
    exists i :: 0 <= i < |bookings| && bookings[i].coach.coachId == Some(coachId) && Conflicts(bookings[i], s, e, exclude)
  }

  /** The booking's local "HH:MM" start and end lie in the window, bounds
      included, compared as strings. */
  predicate FitsWindow(cal: Calendar, w: Window, s: int, e: int) {
    !StrLt(GetTimeString(cal, s), w.startTime) && !StrLt(w.endTime, GetTimeString(cal, e))
  }

  /** `checkCoachAvailability`. Only the first window for the weekday of the
      start is consulted. */
  function CheckCoachAvailability(coaches: map<CoachId, Coach>, bookings: seq<Booking>, cal: Calendar,
                                  coachId: Option<CoachId>, s: int, e: int, exclude: Option<BookingId>): Verdict
  {
    if coachId.None? then Available
    else if coachId.value !in coaches then Unavailable("Coach not found")
    else
      var coach := coaches[coachId.value];
      if !coach.isActive then Unavailable("Coach is currently inactive")
      else
        var day := GetDayOfWeek(cal, s);
        var k := FirstWindowIndex(coach.availability, day);
        if k == |coach.availability| then Unavailable("Coach is not available on " + DayNames[day])
        else
          var w := coach.availability[k];
          if !FitsWindow(cal, w, s, e) then
            Unavailable("Coach is only available from " + w.startTime + " to " + w.endTime + " on this day")
          else if CoachBooked(bookings, coachId.value, s, e, exclude) then Unavailable("Coach is already booked for this time slot")
          else Available
  }

  /** A window whose bounds are rendered times. */
  predicate WellFormedWindow(w: Window, lo: MinuteOfDay, hi: MinuteOfDay) {
    w.startTime == TimeString(lo) && w.endTime == TimeString(hi)
  }

  /** With "HH:MM" bounds, fitting a window is the minute comparison with both
      bounds inclusive. */
  lemma FitsWindowInclusive(cal: Calendar, w: Window, lo: MinuteOfDay, hi: MinuteOfDay, s: int, e: int)
    requires WellFormedWindow(w, lo, hi)
    ensures FitsWindow(cal, w, s, e) <==> lo <= cal.minuteOfDay(s) && cal.minuteOfDay(e) <= hi
  {
    TimeStringOrder(cal.minuteOfDay(s), lo);
    TimeStringOrder(hi, cal.minuteOfDay(e));
  }

  /** A requested coach is available exactly when it exists, is active, its
      first window for the start's weekday exists and the booking fits it, and
      no conflicting booking references it. */
  lemma CoachAvailableIff(coaches: map<CoachId, Coach>, bookings: seq<Booking>, cal: Calendar,
                          c: CoachId, s: int, e: int, exclude: Option<BookingId>)
    ensures CheckCoachAvailability(coaches, bookings, cal, Some(c), s, e, exclude) == Available <==>
      && c in coaches && coaches[c].isActive
      && (exists k :: 0 <= k < |coaches[c].availability|
            && coaches[c].availability[k].dayOfWeek == cal.weekday(s)
            && (forall j :: 0 <= j < k ==> coaches[c].availability[j].dayOfWeek != cal.weekday(s))
            && FitsWindow(cal, coaches[c].availability[k], s, e))
      && !CoachBooked(bookings, c, s, e, exclude)
    ensures CheckCoachAvailability(coaches, bookings, cal, None, s, e, exclude) == Available
  {
    if c in coaches {
      var ws := coaches[c].availability;
      var k := FirstWindowIndex(ws, cal.weekday(s));
      forall k' | 0 <= k' < |ws| && ws[k'].dayOfWeek == cal.weekday(s)
                  && (forall j :: 0 <= j < k' ==> ws[j].dayOfWeek != cal.weekday(s))
        ensures k' == k
      {
      }
    }
  }

  /** A requested coach that exists and is active, whose first window for
      the start's weekday does not hold the booking, is refused with that
      window's hours in the reason, whatever the bookings. */
  lemma CoachWindowRefusal(coaches: map<CoachId, Coach>, bookings: seq<Booking>, cal: Calendar,
                           c: CoachId, s: int, e: int, exclude: Option<BookingId>, k: nat)
    requires c in coaches && coaches[c].isActive
    requires k == FirstWindowIndex(coaches[c].availability, cal.weekday(s)) && k < |coaches[c].availability|
    requires !FitsWindow(cal, coaches[c].availability[k], s, e)
    ensures var w := coaches[c].availability[k];
      CheckCoachAvailability(coaches, bookings, cal, Some(c), s, e, exclude)
        == Unavailable("Coach is only available from " + w.startTime + " to " + w.endTime + " on this day")
  {
  }

  /** A booking that ends after a window's closing time does not fit it. */
  lemma EndsAfterWindow(cal: Calendar, w: Window, s: int, e: int, close: MinuteOfDay)
    requires w.endTime == TimeString(close) && close < cal.minuteOfDay(e)
    ensures !FitsWindow(cal, w, s, e)
  {
    TimeStringOrder(close, cal.minuteOfDay(e));
  }

  /** Proof steps of `OnlyFirstWindowConsulted` and `CoachOutsideWindowRejected`:
      the closing times of their windows, rendered. */
  lemma TwelveOClock() ensures TimeString(12 * 60) == "12:00" { }
  lemma FiveOClock() ensures TimeString(17 * 60) == "17:00" { }

  /** Proof step of `OnlyFirstWindowConsulted`: its refusal text, spelled out. */
  lemma NoonRefusalText()
    ensures "Coach is only available from " + "09:00" + " to " + "12:00" + " on this day"
         == "Coach is only available from 09:00 to 12:00 on this day"
  {
  }

  /** Proof step of `CoachOutsideWindowRejected`: its refusal text, spelled out. */
  lemma FiveRefusalText()
    ensures "Coach is only available from " + "09:00" + " to " + "17:00" + " on this day"
         == "Coach is only available from 09:00 to 17:00 on this day"
  {
  }

  /** Only the first window of the day counts: a coach working 09:00-12:00 and
      14:00-18:00 on Mondays is refused for 15:00-16:00 on a Monday. */
  lemma OnlyFirstWindowConsulted(cal: Calendar, s: int, e: int)
    requires cal.weekday(s) == 1 && cal.minuteOfDay(s) == 15 * 60 && cal.minuteOfDay(e) == 16 * 60
    ensures
      var coach := Coach("Coach", "Tennis", 40.0, true,
                         [Window(1, "09:00", "12:00"), Window(1, "14:00", "18:00")], "", 10, 4.5);
      CheckCoachAvailability(map[7 := coach], [], cal, Some(7), s, e, None)
        == Unavailable("Coach is only available from 09:00 to 12:00 on this day")
  {
    var w := Window(1, "09:00", "12:00");
    var coach := Coach("Coach", "Tennis", 40.0, true, [w, Window(1, "14:00", "18:00")], "", 10, 4.5);
    TwelveOClock();
    EndsAfterWindow(cal, w, s, e, 12 * 60);
    assert FirstWindowIndex(coach.availability, 1) == 0;
    CoachWindowRefusal(map[7 := coach], [], cal, 7, s, e, None, 0);
    NoonRefusalText();
  }

  /** A coach working 09:00-17:00 is refused for 16:30-17:30 on a working day. */
  lemma CoachOutsideWindowRejected(cal: Calendar, s: int, e: int)
    requires cal.weekday(s) == 1 && cal.minuteOfDay(s) == 16 * 60 + 30 && cal.minuteOfDay(e) == 17 * 60 + 30
    ensures
      var coach := Coach("Coach", "Tennis", 40.0, true,
                         [Window(1, "09:00", "17:00"), Window(2, "09:00", "17:00")], "", 15, 4.8);
      CheckCoachAvailability(map[3 := coach], [], cal, Some(3), s, e, None)
        == Unavailable("Coach is only available from 09:00 to 17:00 on this day")
  {
    var w := Window(1, "09:00", "17:00");
    var coach := Coach("Coach", "Tennis", 40.0, true, [w, Window(2, "09:00", "17:00")], "", 15, 4.8);
    FiveOClock();
    EndsAfterWindow(cal, w, s, e, 17 * 60);
    assert FirstWindowIndex(coach.availability, 1) == 0;
    CoachWindowRefusal(map[3 := coach], [], cal, 3, s, e, None, 0);
    FiveRefusalText();
  }

  // ---------------------------------------------------------------------
  // All resources together
  // ---------------------------------------------------------------------

  datatype MultiReport = MultiReport(
    available: bool,
    court: Verdict,
    equipment: Option<EquipmentCheck>,
    coach: Verdict,
    errors: seq<string>)

  /** What a verdict pushes onto `errors`. */
  function ReasonOf(v: Verdict): seq<string> {
    if v.Unavailable? then [v.reason] else []
  }

  /** The result record built from the three sub-results. */
  function Assemble(court: Verdict, eq: Option<EquipmentCheck>, coach: Verdict): MultiReport {
    MultiReport(
      court == Available && (eq.None? || eq.value.verdict == Available) && coach == Available,
      court, eq, coach,
      ReasonOf(court) + (if eq.Some? then ReasonOf(eq.value.verdict) else []) + ReasonOf(coach))
  }

  /** The value `checkMultiResourceAvailability` returns: the equipment check
      runs only when some equipment was requested. */
  function MultiResourceReport(courts: map<CourtId, Court>, equipment: map<EquipmentId, Equipment>,
                               coaches: map<CoachId, Coach>, bookings: seq<Booking>, cal: Calendar,
                               req: ResourceRequest, exclude: Option<BookingId>): MultiReport
  {
    Assemble(
      CheckCourtAvailability(courts, bookings, req.courtId, req.startTime, req.endTime, exclude),
      if |req.equipment| > 0
      then Some(EquipmentReport(equipment, bookings, req.equipment, req.startTime, req.endTime, exclude))
      else None,
      CheckCoachAvailability(coaches, bookings, cal, req.coachId, req.startTime, req.endTime, exclude))
  }

  /** The combined result is available exactly when `errors` is empty, which is
      exactly when the court can be booked, every requested equipment item can
      be supplied and the coach (if any) is free. */
  lemma MultiAvailableIff(courts: map<CourtId, Court>, equipment: map<EquipmentId, Equipment>,
                          coaches: map<CoachId, Coach>, bookings: seq<Booking>, cal: Calendar,
                          req: ResourceRequest, exclude: Option<BookingId>)
    ensures var r := MultiResourceReport(courts, equipment, coaches, bookings, cal, req, exclude);
      && (r.available <==> r.errors == [])
      && (r.available <==>
            && CheckCourtAvailability(courts, bookings, req.courtId, req.startTime, req.endTime, exclude) == Available
            && (forall k :: 0 <= k < |req.equipment| ==>
                  ItemSuppliable(equipment, bookings, req.equipment[k], req.startTime, req.endTime, exclude))
            && CheckCoachAvailability(coaches, bookings, cal, req.coachId, req.startTime, req.endTime, exclude) == Available)
  {
    EquipmentAvailableIff(equipment, bookings, req.equipment, req.startTime, req.endTime, exclude);
  }

  /** Records a failed check: the result is no longer available and the
      check's reason is pushed onto `errors`. */
  method RecordFailure(results: MultiReport, v: Verdict) returns (r: MultiReport)
    ensures r == results.(available := results.available && v == Available, errors := results.errors + ReasonOf(v))
  {
    r := results;
    if v.Unavailable? {
      r := r.(available := false, errors := r.errors + [v.reason]);
    }
  }

  /** `checkMultiResourceAvailability`: fills in the result record check by
      check, pushing the reason of each failing one onto `errors`. */
  method CheckMultiResourceAvailability(courts: map<CourtId, Court>, equipment: map<EquipmentId, Equipment>,
                                        coaches: map<CoachId, Coach>, bookings: seq<Booking>, cal: Calendar,
                                        req: ResourceRequest, exclude: Option<BookingId>)
    returns (results: MultiReport)
    ensures results == MultiResourceReport(courts, equipment, coaches, bookings, cal, req, exclude)
  {
    results := MultiReport(true, Available, None, Available, []);

    var courtCheck := CheckCourtAvailability(courts, bookings, req.courtId, req.startTime, req.endTime, exclude);
    results := results.(court := courtCheck);
    results := RecordFailure(results, courtCheck);
    assert results == Assemble(courtCheck, None, Available);

    if |req.equipment| > 0 {
      var equipmentCheck := CheckEquipmentAvailability(equipment, bookings, req.equipment, req.startTime, req.endTime, exclude);
      results := results.(equipment := Some(equipmentCheck));
      results := RecordFailure(results, equipmentCheck.verdict);
      assert results == Assemble(courtCheck, Some(equipmentCheck), Available);
    }

    if req.coachId.Some? {
      var coachCheck := CheckCoachAvailability(coaches, bookings, cal, req.coachId, req.startTime, req.endTime, exclude);
      results := results.(coach := coachCheck);
      results := RecordFailure(results, coachCheck);
    } else {
      results := results.(coach := Available);
    }
    assert results.coach == CheckCoachAvailability(coaches, bookings, cal, req.coachId, req.startTime, req.endTime, exclude);
    assert results == Assemble(courtCheck, results.equipment, results.coach);
  }
}

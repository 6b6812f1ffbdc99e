/** The persisted records the booking core reads and writes
    (backend/models/Court.js, Coach.js, PricingRule.js, Booking.js) and the
    requests it is handed. Document ids are natural numbers. */
module Models {
  import opened Wrappers

  type CourtId = nat
  type EquipmentId = nat
  type CoachId = nat
  type BookingId = nat

  // ---------------------------------------------------------------------
  // Court
  // ---------------------------------------------------------------------

  datatype CourtType = Indoor | Outdoor

  datatype Court = Court(
    name: string,
    courtType: CourtType,
    sport: string,
    basePrice: real,      // per hour
    isActive: bool,
    capacity: int,
    description: string)

  // ---------------------------------------------------------------------
  // Coach
  // ---------------------------------------------------------------------

  /** A weekly availability window; the times are "HH:mm" strings. */
  datatype Window = Window(dayOfWeek: int, startTime: string, endTime: string)

  datatype Coach = Coach(
    name: string,
    specialization: string,
    pricePerHour: real,
    isActive: bool,
    availability: seq<Window>,
    bio: string,
    experience: int,
    rating: real)

  // ---------------------------------------------------------------------
  // Pricing rule
  // ---------------------------------------------------------------------

  datatype RuleType = PeakHour | Weekend | IndoorPremium | Seasonal | Custom

  datatype TimeRange = TimeRange(startTime: string, endTime: string)

  /** Endpoints are instants (`Date`s). */
  datatype DateRange = DateRange(startDate: int, endDate: int)

  /** An empty facet places no restriction. */
  datatype Conditions = Conditions(
    courtTypes: seq<CourtType>,
    daysOfWeek: seq<int>,
    timeRanges: seq<TimeRange>,
    dateRanges: seq<DateRange>)

  datatype PricingRule = PricingRule(
    name: string,
    description: string,
    ruleType: RuleType,
    multiplier: real,
    conditions: Conditions,
    priority: int,
    isActive: bool)

  // ---------------------------------------------------------------------
  // Booking
  // ---------------------------------------------------------------------

  /** The schema's status enum. The availability queries also accept
      'pending', which the enum does not admit. */
  datatype Status = Confirmed | Cancelled | Completed

  /** A booked equipment item with the price per hour it had when booked. */
  datatype EquipmentLine = EquipmentLine(equipmentId: EquipmentId, quantity: int, pricePerHour: real)

  /** The coach reference (null when none) and its price snapshot. */
  datatype CoachLine = CoachLine(coachId: Option<CoachId>, pricePerHour: real)

  datatype AppliedRule = AppliedRule(name: string, multiplier: real, description: string)

  datatype PricingFields = PricingFields(
    courtBasePrice: real,
    courtMultiplier: real,
    courtPrice: real,
    equipmentPrice: real,
    coachPrice: real,
    subtotal: real,
    tax: real,
    totalPrice: real,
    appliedRules: seq<AppliedRule>)

  datatype Booking = Booking(
    id: BookingId,
    userId: string,
    court: CourtId,
    startTime: int,
    endTime: int,
    equipment: seq<EquipmentLine>,
    coach: CoachLine,
    pricing: PricingFields,
    status: Status,
    customerName: string,
    customerEmail: string,
    customerPhone: string)

  /** What the booking schema's validators demand before a save: the
      required strings are non-empty, every equipment line has quantity at
      least 1 and a non-negative price snapshot. */
  predicate BookingSchemaValid(b: Booking) {
    && b.userId != ""
    && b.customerName != ""
    && b.customerEmail != ""
    && b.customerPhone != ""
    && forall k :: 0 <= k < |b.equipment| ==> b.equipment[k].quantity >= 1 && b.equipment[k].pricePerHour >= 0.0
  }

  // ---------------------------------------------------------------------
  // Requests
  // ---------------------------------------------------------------------

  datatype EquipmentRequest = EquipmentRequest(equipmentId: EquipmentId, quantity: int)

  /** The resource part of a booking request: what availability and pricing
      look at. */
  datatype ResourceRequest = ResourceRequest(
    courtId: CourtId,
    startTime: int,
    endTime: int,
    equipment: seq<EquipmentRequest>,
    coachId: Option<CoachId>)

  /** A create-booking request as the controller hands it on: the resources,
      the authenticated user's id and the customer details. */
  datatype BookingRequest = BookingRequest(
    resources: ResourceRequest,
    userId: string,
    customerName: string,
    customerEmail: string,
    customerPhone: string)
}

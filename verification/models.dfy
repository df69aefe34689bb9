/**
  Records of the delivery service (users, customers, orders) and the order
  lifecycle: confirmation by a driver, flagging a problem, and the lateness
  test used for admins.

  Calendar dates are proleptic Gregorian ordinals (day 1 is Monday
  0001-01-01, as in Python's `date.toordinal`), and date-times are local
  wall-clock instants counted in whole seconds.
 */
module Models {
  import opened Common

  type Date = int
  type Seconds = int

  const SecondsPerDay: int := 86400

  /** A time of day, in seconds after midnight. */
  type TimeOfDay = t: int | 0 <= t < 86400

  /** Python's `date.weekday()`: Monday is 0 and Sunday is 6. */
  function Weekday(d: Date): (w: nat)
    ensures w < 7
  {
    (d + 6) % 7
  }

  /**
    Consecutive dates run through the week in order, and the ordinals of
    0001-01-01 and 2024-01-01 are Mondays.
   */
  lemma WeekdayCycle(d: Date)
    ensures Weekday(d + 1) == (Weekday(d) + 1) % 7
    ensures Weekday(d + 7) == Weekday(d)
    ensures Weekday(1) == 0 && Weekday(738886) == 0
  {
  }

  /** `datetime.combine(day, time)` as a wall-clock instant. */
  function Combine(day: Date, t: TimeOfDay): (s: Seconds)
    ensures DateOf(s) == day
  {
    day * SecondsPerDay + t
  }

  /** The calendar date of an instant (the `__date` lookup). */
  function DateOf(s: Seconds): Date
  {
    s / SecondsPerDay
  }

  // ---------------------------------------------------------------- roles

  /**
    The roles the code distinguishes. `Manager` is compared against
    throughout even though it is not one of the declared choices; any other
    stored string is `Unlisted`.
   */
  datatype Role = Admin | Manager | Accountant | Driver | Unlisted(name: string)

  const KnownRoleNames: set<string> := {"admin", "manager", "accountant", "driver"}

  function RoleName(r: Role): string
  {
    match r
    case Admin => "admin"
    case Manager => "manager"
    case Accountant => "accountant"
    case Driver => "driver"
    case Unlisted(n) => n
  }

  /** A role value that some stored string denotes. */
  predicate WellFormedRole(r: Role)
  {
    r.Unlisted? ==> r.name !in KnownRoleNames
  }

  /** Classifies the string stored in `User.role`. */
  function ParseRole(s: string): (r: Role)
    ensures WellFormedRole(r)
    ensures RoleName(r) == s
  {
    if s == "admin" then Admin
    else if s == "manager" then Manager
    else if s == "accountant" then Accountant
    else if s == "driver" then Driver
    else Unlisted(s)
  }

  lemma ParseRoleName(r: Role)
    requires WellFormedRole(r)
    ensures ParseRole(RoleName(r)) == r
  {
  }

  /** The declared `User.ROLE_CHOICES`; `manager` is missing from them. */
  predicate IsRoleChoice(r: Role)
  {
    r == Admin || r == Accountant || r == Driver
  }

  /** The user behind a request: an anonymous visitor has no id and no `role` attribute. */
  datatype Requester = Anonymous | Member(id: nat, role: string)

  predicate IsAuthenticated(u: Requester)
  {
    u.Member?
  }

  // ------------------------------------------------------------ customers

  /** The fields of a customer that the scheduling and ordering rules read. */
  datatype Customer = Customer(
    id: nat,
    driver: Option<nat>,
    weeklyTrips: Option<int>,
    deliveryDays: seq<string>,
    deliveryTime: Option<TimeOfDay>,
    gallons: Option<int>,
    locationLink: Option<string>)

  // --------------------------------------------------------------- orders

  datatype Status = Pending | Confirmed | Completed | Canceled | Problem

  /** An order; `proofImage` is the stored file name of the proof photograph. */
  datatype Order = Order(
    customer: nat,
    driver: Option<nat>,
    proofImage: Option<string>,
    deliveryTime: Option<Seconds>,
    requiredGallons: Option<int>,
    customerLocation: Option<string>,
    filledAmount: Option<int>,
    problemReason: Option<string>,
    status: Status,
    createdAt: Option<Seconds>,
    confirmedAt: Option<Seconds>)

  /** The fields that describe the delivery itself, which no transition touches. */
  predicate SameDelivery(a: Order, b: Order)
  {
    && a.customer == b.customer
    && a.driver == b.driver
    && a.deliveryTime == b.deliveryTime
    && a.requiredGallons == b.requiredGallons
    && a.customerLocation == b.customerLocation
    && a.createdAt == b.createdAt
  }

  /** The fields a confirmation writes. */
  predicate SameConfirmation(a: Order, b: Order)
  {
    && a.filledAmount == b.filledAmount
    && a.proofImage == b.proofImage
    && a.confirmedAt == b.confirmedAt
  }

  const DefaultLateMinutes: int := 30

  /**
    `Order.is_driver_late`: late when both instants are recorded and the
    confirmation came strictly more than `minutes` minutes after creation.
   */
  function IsDriverLate(o: Order, minutes: int): (late: bool)
    ensures late ==> o.confirmedAt.Some? && o.createdAt.Some?
    ensures o.confirmedAt.Some? && o.createdAt.Some? && o.confirmedAt.value <= o.createdAt.value && minutes >= 0 ==> !late
  {
    o.confirmedAt.Some? && o.createdAt.Some?
    && o.confirmedAt.value - o.createdAt.value > minutes * 60
  }

  /**
    An order as built in memory before it is saved: every field not given
    keeps its column default, so it is pending and carries no confirmation.
   */
  function NewOrder(customer: nat, driver: Option<nat>, deliveryTime: Option<Seconds>,
                    requiredGallons: Option<int>, customerLocation: Option<string>): (o: Order)
    ensures o.status == Pending
    ensures o.customer == customer && o.driver == driver && o.deliveryTime == deliveryTime
    ensures o.requiredGallons == requiredGallons && o.customerLocation == customerLocation
    ensures o.filledAmount.None? && o.proofImage.None? && o.problemReason.None?
    ensures forall m :: !IsDriverLate(o, m)
  {
    Order(customer, driver, None, deliveryTime, requiredGallons, customerLocation,
          None, None, Pending, None, None)
  }

  datatype ConfirmError = ProofImageRequired | FilledAmountRequired

  /**
    `Order.confirm`: the proof is checked before the amount, both by Python
    truthiness; the prior status is not consulted.
   */
  function Confirm(o: Order, filledAmount: Option<int>, proofImage: Option<string>,
                   now: Seconds): (r: Result<Order, ConfirmError>)
    ensures !StrTruthy(proofImage) ==> r == Err(ProofImageRequired)
    ensures StrTruthy(proofImage) && !IntTruthy(filledAmount) ==> r == Err(FilledAmountRequired)
    ensures r.Ok? <==> StrTruthy(proofImage) && IntTruthy(filledAmount)
    ensures r.Ok? ==> r.value.status == Confirmed && r.value.confirmedAt == Some(now)
    ensures r.Ok? ==> r.value.filledAmount == filledAmount && r.value.proofImage == proofImage
    ensures r.Ok? ==> SameDelivery(o, r.value) && r.value.problemReason == o.problemReason
  {
    if !StrTruthy(proofImage) then Err(ProofImageRequired)
    else if !IntTruthy(filledAmount) then Err(FilledAmountRequired)
    else Ok(o.(status := Confirmed, filledAmount := filledAmount,
               proofImage := proofImage, confirmedAt := Some(now)))
  }

  /** `Order.mark_problem`: any order may be flagged, whatever its status. */
  function MarkProblem(o: Order, reason: Option<string>): (r: Order)
    ensures r.status == Problem && r.problemReason == reason
    ensures SameDelivery(o, r) && SameConfirmation(o, r)
  {
    o.(status := Problem, problemReason := reason)
  }

  /** Flagging twice with the same reason is the same as flagging once. */
  lemma MarkProblemIdempotent(o: Order, reason: Option<string>)
    ensures MarkProblem(MarkProblem(o, reason), reason) == MarkProblem(o, reason)
  {
  }

  /** Flagging a problem never changes whether the driver counts as late. */
  lemma MarkProblemKeepsLateness(o: Order, reason: Option<string>, minutes: int)
    ensures IsDriverLate(MarkProblem(o, reason), minutes) == IsDriverLate(o, minutes)
  {
  }

  /**
    After a successful confirmation at `now`, the order is late exactly when
    it was created and `now` lies strictly beyond the threshold.
   */
  lemma ConfirmLateness(o: Order, filledAmount: Option<int>, proofImage: Option<string>,
                        now: Seconds, minutes: int)
    requires Confirm(o, filledAmount, proofImage, now).Ok?
    ensures IsDriverLate(Confirm(o, filledAmount, proofImage, now).value, minutes)
        <==> o.createdAt.Some? && now - o.createdAt.value > minutes * 60
  {
  }

  /** A confirmation exactly at the threshold is not late; one second more is. */
  lemma LatenessThreshold(o: Order, minutes: int)
    requires o.createdAt.Some? && o.confirmedAt.Some?
    ensures o.confirmedAt.value == o.createdAt.value + minutes * 60 ==> !IsDriverLate(o, minutes)
    ensures o.confirmedAt.value == o.createdAt.value + minutes * 60 + 1 ==> IsDriverLate(o, minutes)
  {
  }

  /** Lateness for a longer allowance implies lateness for any shorter one. */
  lemma LatenessMonotone(o: Order, shorter: int, longer: int)
    requires shorter <= longer
    ensures IsDriverLate(o, longer) ==> IsDriverLate(o, shorter)
  {
  }
}

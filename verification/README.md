# Water delivery back end: decision logic

A Dafny model of the decision logic in the back end of a water-delivery
service. The back end tracks customers with weekly delivery schedules,
delivery orders and complaints, and serves four staff roles (admin,
manager, accountant, driver). The model covers four pieces:

- **Daily order generation** (`Tasks`). Each run of
  `generate_today_orders` gives every customer with a positive trip count
  and a delivery time one pending order for today,
  if the customer's delivery days name today's weekday (ignoring case) and
  the customer has no order delivered today yet. The date, the customer
  snapshot, the stored orders and the instant of the run are inputs. Saving
  appends the new orders to the store with `created_at` set to the instant
  of the run.
- **Order lifecycle** (`Models`). A driver confirms an order with a proof
  photo and a filled amount. Flagging an order as a problem has no
  precondition on its status. An admin
  sees whether the driver was late, meaning the confirmation came strictly
  more than 30 minutes after the order was created.
- **Serializer rules** (`Serializers`):
  - which requester role may create which user role;
  - passwords reach an account only through `set_password`;
  - a customer's `weekly_trips` / `delivery_days` pair is normalised, with
    a Monday-first default schedule;
  - an order's confirmation fields and lateness flag are hidden from some
    viewers;
  - a complaint's order must belong to the complaining customer.
- **Permission classes** (`Permissions`). Each class grants access from
  the requesting user's authentication and role string.

Conventions:

- Calendar dates are proleptic Gregorian ordinals, as in Python's
  `date.toordinal`, so `weekday()` is `(ordinal + 6) % 7`.
- Date-times are local wall-clock instants in whole seconds.
  `datetime.combine(day, t)` is `day * 86400 + t`, and the `__date` lookup
  is division by 86400.
- Roles are the stored strings. They are classified by `Models.ParseRole`
  into `Admin | Manager | Accountant | Driver | Unlisted(name)`. `manager`
  is compared against throughout, but it is missing from the declared role
  choices.
- Python truthiness is modelled exactly where a rule depends on it:
  - `filled_amount == 0` counts as a missing amount;
  - an empty proof file name counts as no proof;
  - a `weekly_trips` of 0 or `None` skips schedule validation;
  - a negative `weekly_trips` is truthy and slices the default days from
    the end. With `-2` and no days, five days are kept.

The model shows three behaviours that are surprising as written:

- A customer submitted with more than seven weekly trips and no days is
  accepted with all seven days. Submitting that accepted record again is
  rejected, because seven days do not match the trip count
  (`Serializers.RevalidationRejectsMoreThanSevenTrips`).
- A customer submitted with a negative trip count between -6 and -1 and no
  days is accepted with `7 + weekly_trips` days. Submitting that accepted
  record again is rejected the same way
  (`Serializers.RevalidationOfNegativeTrips`).
- The order generator's guard is per customer and per delivery date. Any
  order delivered today, whatever its status, blocks a new one.

## Model

| member | source | states |
|---|---|---|
| Models.ParseRole | src/backend/api/models.py:9-14 | every stored role string is classified without loss: the role's name is the string itself, and the classification is a well-formed role |
| Models.ParseRoleName | src/backend/api/models.py:9-14 | classifying the name of a well-formed role gives the role back (round trip with `RoleName`) |
| Models.Weekday | src/backend/api/tasks.py:21 | the weekday index of a date lies in 0..6 |
| Models.WeekdayCycle | src/backend/api/tasks.py:20-21 | consecutive dates advance the weekday index by one modulo seven, a week later is the same weekday, and 0001-01-01 and 2024-01-01 are Mondays (index 0) |
| Models.Combine | src/backend/api/tasks.py:31 | today's date combined with a time of day is an instant whose calendar date is today |
| Models.NewOrder | src/backend/api/models.py:72-84 | an order built without status gets the default status pending, has no filled amount, proof or problem reason, and is never late for any allowance |
| Models.IsDriverLate | src/backend/api/models.py:102-105 | an order is never late when its confirmation or creation time is missing, nor when it was confirmed no later than it was created under a non-negative allowance |
| Models.Confirm | src/backend/api/models.py:86-95 | a falsy proof fails with the proof error before the amount is checked; with a truthy proof, a falsy amount (None or 0) fails with the amount error; success exactly when both are truthy, whatever the prior status; success sets status confirmed, stores the amount and proof, sets the confirmation time to now, and keeps the delivery fields and problem reason |
| Models.MarkProblem | src/backend/api/models.py:97-100 | status becomes problem and the reason is stored; delivery and confirmation fields are unchanged |
| Models.MarkProblemIdempotent | src/backend/api/models.py:97-100 | flagging twice with the same reason equals flagging once |
| Models.MarkProblemKeepsLateness | src/backend/api/models.py:97-105 | flagging a problem never changes the lateness verdict |
| Models.ConfirmLateness | src/backend/api/models.py:91-105 | after a successful confirmation at `now`, the order is late iff it has a creation time and `now` minus that time exceeds the allowance strictly; without a creation time it is never late |
| Models.LatenessThreshold | src/backend/api/models.py:102-105 | a confirmation exactly `minutes*60` seconds after creation is not late, one second more is late |
| Models.LatenessMonotone | src/backend/api/models.py:102-105 | late under a longer allowance implies late under any shorter one |
| Tasks.TodayWeekday | src/backend/api/tasks.py:20-21 | today's weekday name is one of the seven lower-case names; weekday index 0 is "monday" and 6 is "sunday" |
| Common.Lower | src/backend/api/tasks.py:25 | lower-casing keeps the length, leaves no upper-case ASCII letter, and leaves every other character unchanged |
| Common.LowerIdempotent | src/backend/api/tasks.py:25 | lower-casing a lower-cased string changes nothing |
| Tasks.Eligible | src/backend/api/tasks.py:12 | an eligible customer has a positive trip count and a delivery time; a missing, zero or negative trip count is never eligible |
| Tasks.AnyDayMatches | src/backend/api/tasks.py:25 | true iff some listed day, lower-cased, equals the name; an empty list never matches |
| Tasks.OrderFor | src/backend/api/tasks.py:31-41 | the new order is pending, for the customer, with the customer's driver, gallons and location link, delivered at today combined with the customer's time, so on today's date |
| Tasks.ExistingCustomerIds | src/backend/api/tasks.py:15-16 | the guard holds exactly the customer ids of stored orders whose delivery instant falls on today |
| Tasks.Materialize | src/backend/api/tasks.py:12-41 | at most one order per snapshot entry; every created order is pending, delivered today, and for a customer outside the guard set |
| Tasks.MaterializeSound | src/backend/api/tasks.py:12-41 | every created order is exactly the order built for some customer that passes the filter, lists today's weekday and is not guarded |
| Tasks.MaterializeComplete | src/backend/api/tasks.py:23-41 | every customer that passes the filter, lists today's weekday and is not guarded receives its order |
| Tasks.NothingSelectedNothingCreated | src/backend/api/tasks.py:23-41 | a run in which no customer qualifies creates no order |
| Tasks.MaterializeBoundedByEligible | src/backend/api/tasks.py:12-41 | the number of created orders is at most the number of customers with positive trips and a delivery time |
| Tasks.MaterializeOnePerCustomer | src/backend/api/tasks.py:23-41 | with distinct customer ids, no two created orders are for the same customer |
| Tasks.NoOrderForUnselected | src/backend/api/tasks.py:25-29 | with distinct ids, a customer that fails the filter, does not list today or is guarded receives no order |
| Tasks.NonPositiveTripsNoOrder | src/backend/api/tasks.py:12 | with distinct ids, a customer whose trip count is zero or negative receives no order, whatever its delivery days |
| Tasks.EmptyDaysNoOrder | src/backend/api/tasks.py:25-26 | with distinct ids, a customer with an empty day list receives no order |
| Tasks.SecondRunCreatesNothing | src/backend/api/tasks.py:15-45 | idempotence: after the first run's orders are saved (appended with `created_at` stamped), a second run for the same day creates no order |
| Tasks.GenerateTodayOrders | src/backend/api/tasks.py:9-47 | the loop creates exactly the orders of `Materialize` for the guard computed from the store; the store after saving is the old store followed by the new orders, each with `created_at` set to the instant of the run and still pending (`bulk_create` with `auto_now_add`); the reported count is the number created |
| Tasks.GeneratedOrderLateness | src/backend/api/models.py:83-105 | a generated order, once saved at the run's instant and confirmed, is late iff the confirmation came more than the allowance after the run, whatever its delivery time |
| Serializers.MayCreate | src/backend/api/serializers.py:22-31 | the role matrix: accountants and drivers may create nobody, a manager only drivers, only a requester outside the known roles may create an admin, and such a requester may create anything |
| Serializers.CreateUser | src/backend/api/serializers.py:17-38 | creation succeeds iff the role matrix allows it: a manager only creates drivers (a missing role included), an admin never creates an admin, accountants and drivers create nothing, other roles create anything; each failure carries the error of the first check that fails; a created account holds every submitted field except the password, and the credential is set only from a truthy password |
| Serializers.UpdateUser | src/backend/api/serializers.py:40-47 | every submitted field except the password overwrites the attribute, all other attributes stay, a truthy password replaces the credential and otherwise the credential stays |
| Serializers.SubmittedNullClears | src/backend/api/serializers.py:41-43 | a field submitted as null on update is set to null, whatever it held before |
| Serializers.CreateIsUpdateOfBlank | src/backend/api/serializers.py:33-46 | a successful create yields the same account as updating a blank account with the same data |
| Serializers.PasswordNeverStored | src/backend/api/serializers.py:33-46 | neither create nor update ever stores the password as a plain attribute |
| Serializers.UpdateIdempotent | src/backend/api/serializers.py:40-47 | applying the same update twice equals applying it once |
| Common.PyPrefix | src/backend/api/serializers.py:126 | Python's `s[:stop]`: a prefix of `s`, of length `stop` within range, all of `s` above it, the length of `s` plus `stop` for a negative stop, and empty when that sum is negative |
| Serializers.ValidateCustomer | src/backend/api/serializers.py:119-132 | a falsy trip count returns the attributes unchanged; rejection happens iff the trip count is truthy, days are given, and their number differs; with no days, the days become a prefix of Monday..Sunday: `weekly_trips` of them for 1..7, all seven above 7, and `7 + weekly_trips` (at least 0) for negative counts; accepted records keep the trip count and all other fields |
| Serializers.ValidatedDaysMatchTrips | src/backend/api/serializers.py:123-130 | for a trip count from one to seven, every record accepted from one request's submitted fields lists exactly that many days (a partial update is not re-checked against stored values) |
| Serializers.ValidateIdempotentWithinAWeek | src/backend/api/serializers.py:119-132 | for an absent trip count or one from zero to seven, validating an accepted record again changes nothing |
| Serializers.RevalidationRejectsMoreThanSevenTrips | src/backend/api/serializers.py:123-130 | above seven trips with no days, the record is accepted, and validating the accepted record again is rejected with a 7-vs-trips mismatch |
| Serializers.AcceptedNegativeScheduleNeverServed | src/backend/api/serializers.py:123-127 | a trip count from -6 to -1 with no days is accepted with a non-empty default schedule of 7 + trips days, yet a customer with that trip count is never selected by the daily generator |
| Serializers.RevalidationOfNegativeTrips | src/backend/api/serializers.py:123-130 | a negative trip count with no days is accepted; from -6 to -1, validating the accepted record again is rejected with a (7 + trips)-vs-trips mismatch; from -7 down, the days stay empty and re-validation accepts |
| Serializers.DefaultDaysLowerToWeekdays | src/backend/api/serializers.py:125 | the default day names, lower-cased, are the generator's weekday names in the same order |
| Serializers.DefaultScheduleServesFirstWeekdays | src/backend/api/serializers.py:124-126 | a schedule defaulted from k trips (1..7) matches the generator's weekday w iff w < k, Monday first |
| Serializers.IsLateField | src/backend/api/serializers.py:169-173 | the lateness field has a value iff the viewer is an admin, and it is true iff both instants are recorded and the confirmation came more than 1800 seconds (the default 30 minutes) after creation |
| Serializers.Represent | src/backend/api/serializers.py:175-188 | proof image and filled amount are kept iff the viewer is the order's driver or an admin; the lateness flag is kept iff the viewer is an admin; every other key and every kept value is unchanged |
| Serializers.AdminSeesEverything | src/backend/api/serializers.py:178-187 | an admin viewer sees the representation unredacted |
| Serializers.RepresentIdempotent | src/backend/api/serializers.py:175-188 | redacting an already redacted representation removes nothing more |
| Serializers.ValidateComplaint | src/backend/api/serializers.py:277-286 | the submitted complaint data is accepted iff it carries no order or an order belonging to the submitted customer, and is then returned unchanged |
| Serializers.ComplaintAboutGeneratedOrder | src/backend/api/serializers.py:283-284 | a complaint about an order the daily generator built for a customer is accepted iff the complainant is that customer |
| Permissions.HasPermission | src/backend/api/permissions.py:3-26 | a class grants only to an authenticated user, and grants iff the user's role string classifies into the roles the class admits (admin; manager; accountant; driver; admin or manager) |
| Permissions.AnonymousDenied | src/backend/api/permissions.py:5-26 | every class refuses an unauthenticated user |
| Permissions.AdminOrManagerIsUnion | src/backend/api/permissions.py:3-26 | the admin-or-manager class grants iff the admin class or the manager class grants |
| Permissions.SingleRolesExclusive | src/backend/api/permissions.py:3-21 | no user passes two different single-role classes |
| Permissions.ManagerOutsideChoices | src/backend/api/permissions.py:8-11 | "manager" is not among the declared role choices, yet a user with that role passes the manager class |

## Left out

- Persistence: querysets, `bulk_create` and `save()`. Stored orders and customers are explicit snapshots, and saving is a sequence append. `created_at` is set on save: `bulk_create` stamps each order with its own `timezone.now()`, microseconds apart, and the model merges these per-order stamps into the single instant `now` of the run. An order built in memory (`Models.NewOrder`) carries none.
- Overlapping runs of `generate_today_orders` are not modelled. The guard read (tasks.py:15-16) and `bulk_create` (tasks.py:44-45) are not atomic, and no unique key on customer and delivery date backs the guard. So two overlapping runs can both create an order for one customer on one day. `Tasks.SecondRunCreatesNothing` covers runs in sequence only.
- Time zones: `timezone.localdate`, `make_aware` and `timezone.now`. Today's date and "now" are parameters, and all instants are local wall-clock seconds.
- Models.IsDriverLate: compares whole seconds. The source compares `total_seconds()`, a float that includes microseconds.
- The view argument of `has_permission`: none of the five classes reads it, so the predicates take only the user and cannot depend on the view.
- `str.lower` is modelled for ASCII letters only. The only non-ASCII character that lower-cases into ASCII is the Kelvin sign (to `k`), and no weekday name contains `k`, so weekday matching is unaffected.
- `delivery_days` holding JSON null or entries that are not strings (a JSON field may hold anything) is not modelled; the days are always a list of strings, so the query's `delivery_days__isnull=False` filter always passes.
- Field-level validation by the serializer framework (choice fields, required fields, type coercion) is not modelled. Submitted user data maps field names to a string or null.
- The customer-existence query in `ComplaintSerializer.validate` is a store lookup and is not modelled. When a customer is submitted it is resolved from the store, so the lookup finds it. A partial update that omits `customer` reads `None.full_name` and fails with an `AttributeError`; that crash is not modelled.
- Serializers.ValidateComplaint: its input is the fields of one request. The complaint views are a `ModelViewSet`, so a partial update (PATCH) validates only the submitted fields. The stored values are merged in afterwards without re-checking. A PATCH of `customer` alone can therefore store a complaint whose order belongs to another customer, and the model does not promise that stored complaints satisfy the ownership rule.
- Serializers.ValidateCustomer: its input is the fields of one request. A partial update of `delivery_days` alone sees no trip count and skips the day-count check, and the stored trip count is merged in without re-checking. So `Serializers.ValidatedDaysMatchTrips` speaks of the submitted record, not of every stored customer.
- `LoginSerializer` and `LogoutSerializer`: JWT issuing and blacklisting, and `authenticate`, are calls into libraries.
- The salted hashing done by `set_password` is a library call; the model records which raw password was applied.
- The "N orders created for today" message formatting: the model returns the count N.
- Invoices (`RecheckInvoice`, `FinalInvoice`) are not modelled.
- Dashboard metrics, spreadsheet export, the complaint `resolve` action and view configuration are outside the core. They are ORM aggregation, float rounding, spreadsheet output and framework wiring.
- `get_period_display` is `strftime` formatting.
- Image and file fields: a proof image is its file name, an `Option<string>`.

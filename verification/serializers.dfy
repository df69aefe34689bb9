/**
  The business rules that sit in the API's serializers: who may create which
  user, how passwords reach an account, how a customer's weekly schedule is
  normalised, which order fields a viewer may see, and the check that a
  complaint's order belongs to the complaining customer.
 */
module Serializers {
  import opened Common
  import opened Models
  import Tasks

  // ------------------------------------------------------ users and roles

  /** What `set_password` leaves on an account; the salted hashing itself is not modelled. */
  datatype Credential = NoPassword | Hashed(raw: string)

  /**
    A user account: its plain attributes and its credential. An attribute
    value is `None` when the column holds null.
   */
  datatype Account = Account(attrs: map<string, Option<string>>, credential: Credential)

  datatype CreateError = ManagersOnlyCreateDrivers | AdminCannotCreateAnotherAdmin | NotAllowedToCreateUsers

  const PasswordKey: string := "password"
  const RoleKey: string := "role"

  /**
    `data.get(key)` / `data.pop(key, None)` on submitted data whose values
    may be null: an absent key and a null value both read as `None`.
   */
  function Submitted(data: map<string, Option<string>>, key: string): (v: Option<string>)
    ensures v.Some? <==> key in data && data[key].Some?
    ensures v.Some? ==> v.value == data[key].value
  {
    if key in data then data[key] else None
  }

  /** The role asked for in the submitted data, if any. */
  function RequestedRole(data: map<string, Option<string>>): Option<Role>
  {
    var role := Submitted(data, RoleKey);
    if role.Some? then Some(ParseRole(role.value)) else None
  }

  /**
    The role matrix: which requester may create an account with which role.
    Accountants and drivers create nobody, a manager creates only drivers,
    and only a requester outside the known roles may create an admin.
   */
  function MayCreate(requester: Role, target: Option<Role>): (allowed: bool)
    ensures allowed ==> requester != Accountant && requester != Driver
    ensures allowed && requester == Manager ==> target == Some(Driver)
    ensures allowed && target == Some(Admin) ==> requester.Unlisted?
    ensures requester.Unlisted? ==> allowed
  {
    match requester
    case Manager => target == Some(Driver)
    case Admin => target != Some(Admin)
    case Accountant => false
    case Driver => false
    case Unlisted(_) => true
  }

  /** Applies a submitted password only when it is truthy. */
  function ApplyPassword(current: Credential, password: Option<string>): (c: Credential)
    ensures StrTruthy(password) ==> c == Hashed(password.value)
    ensures !StrTruthy(password) ==> c == current
  {
    if StrTruthy(password) then Hashed(password.value) else current
  }

  /**
    `UserSerializer.create`: the three role checks run in order, then the
    account is built from every submitted field except the password, which
    goes through `set_password`.
   */
  function CreateUser(requesterRole: string, data: map<string, Option<string>>): (r: Result<Account, CreateError>)
    ensures r.Ok? <==> MayCreate(ParseRole(requesterRole), RequestedRole(data))
    ensures r.Err? && requesterRole == "manager" ==> r.error == ManagersOnlyCreateDrivers
    ensures r.Err? && requesterRole == "admin" ==> r.error == AdminCannotCreateAnotherAdmin
    ensures r.Err? && requesterRole in {"accountant", "driver"} ==> r.error == NotAllowedToCreateUsers
    ensures r.Ok? ==> r.value.attrs.Keys == data.Keys - {PasswordKey}
    ensures r.Ok? ==> forall k :: k in r.value.attrs ==> r.value.attrs[k] == data[k]
    ensures r.Ok? ==> r.value.credential == (if StrTruthy(Submitted(data, PasswordKey)) then Hashed(data[PasswordKey].value) else NoPassword)
  {
    var newRole := Submitted(data, RoleKey);
    if requesterRole == "manager" && newRole != Some("driver") then Err(ManagersOnlyCreateDrivers)
    else if requesterRole == "admin" && newRole == Some("admin") then Err(AdminCannotCreateAnotherAdmin)
    else if requesterRole in ["accountant", "driver"] then Err(NotAllowedToCreateUsers)
    else Ok(Account(data - {PasswordKey}, ApplyPassword(NoPassword, Submitted(data, PasswordKey))))
  }

  /**
    `UserSerializer.update`: every submitted field except the password
    overwrites the account's attribute, a submitted null included; a truthy
    password replaces the credential, otherwise the credential stays.
   */
  function UpdateUser(account: Account, data: map<string, Option<string>>): (r: Account)
    ensures r.attrs.Keys == account.attrs.Keys + (data.Keys - {PasswordKey})
    ensures forall k :: k in data && k != PasswordKey ==> r.attrs[k] == data[k]
    ensures forall k :: k in account.attrs && (k !in data || k == PasswordKey) ==> r.attrs[k] == account.attrs[k]
    ensures StrTruthy(Submitted(data, PasswordKey)) ==> r.credential == Hashed(data[PasswordKey].value)
    ensures !StrTruthy(Submitted(data, PasswordKey)) ==> r.credential == account.credential
  {
    Account(account.attrs + (data - {PasswordKey}), ApplyPassword(account.credential, Submitted(data, PasswordKey)))
  }

  /** Submitting a null for an attribute clears it, whatever it held before. */
  lemma SubmittedNullClears(account: Account, data: map<string, Option<string>>, key: string)
    requires key in data && data[key] == None && key != PasswordKey
    ensures key in UpdateUser(account, data).attrs
    ensures UpdateUser(account, data).attrs[key] == None
  {
  }

  /** A created account is the blank account updated with the same data. */
  lemma CreateIsUpdateOfBlank(requesterRole: string, data: map<string, Option<string>>)
    requires CreateUser(requesterRole, data).Ok?
    ensures CreateUser(requesterRole, data).value == UpdateUser(Account(map[], NoPassword), data)
  {
    var created := CreateUser(requesterRole, data).value;
    var updated := UpdateUser(Account(map[], NoPassword), data);
    assert created.attrs == updated.attrs;
  }

  /** The password never becomes a plain attribute through create or update. */
  lemma PasswordNeverStored(requesterRole: string, data: map<string, Option<string>>, account: Account)
    requires PasswordKey !in account.attrs
    ensures CreateUser(requesterRole, data).Ok? ==> PasswordKey !in CreateUser(requesterRole, data).value.attrs
    ensures PasswordKey !in UpdateUser(account, data).attrs
  {
  }

  /** Submitting the same update twice has the effect of submitting it once. */
  lemma UpdateIdempotent(account: Account, data: map<string, Option<string>>)
    ensures UpdateUser(UpdateUser(account, data), data) == UpdateUser(account, data)
  {
    var once := UpdateUser(account, data);
    var twice := UpdateUser(once, data);
    assert twice.attrs == once.attrs;
  }

  // ----------------------------------------------------- customer schedule

  /** The attributes `CustomerSerializer.validate` reads; `deliveryDays` is `None` when not submitted. */
  datatype CustomerAttrs = CustomerAttrs(
    weeklyTrips: Option<int>,
    deliveryDays: Option<seq<string>>,
    others: map<string, string>)

  datatype CustomerError = DayCountMismatch(given: nat, expected: int)

  const DefaultDays: seq<string> :=
    ["Monday", "Tuesday", "Wednesday", "Thursday", "Friday", "Saturday", "Sunday"]

  /** The submitted day list is truthy: present and non-empty. */
  predicate DaysGiven(a: CustomerAttrs)
  {
    a.deliveryDays.Some? && a.deliveryDays.value != []
  }

  /**
    `CustomerSerializer.validate`: with a truthy trip count and no days, the
    days default to the first `weekly_trips` names of the week (a Python
    slice); with days given, their number must equal the trip count.
   */
  function ValidateCustomer(a: CustomerAttrs): (r: Result<CustomerAttrs, CustomerError>)
    ensures !IntTruthy(a.weeklyTrips) ==> r == Ok(a)
    ensures r.Err? <==> IntTruthy(a.weeklyTrips) && DaysGiven(a) && |a.deliveryDays.value| != a.weeklyTrips.value
    ensures DaysGiven(a) && r.Ok? ==> r == Ok(a)
    ensures r.Ok? ==> r.value.weeklyTrips == a.weeklyTrips && r.value.others == a.others
    ensures IntTruthy(a.weeklyTrips) && !DaysGiven(a) ==>
      r.Ok? && r.value.deliveryDays.Some? && r.value.deliveryDays.value <= DefaultDays
    ensures IntTruthy(a.weeklyTrips) && !DaysGiven(a) && a.weeklyTrips.value <= 7 ==>
      |r.value.deliveryDays.value| == if a.weeklyTrips.value > 0 then a.weeklyTrips.value
                                      else if a.weeklyTrips.value >= -7 then 7 + a.weeklyTrips.value
                                      else 0
    ensures IntTruthy(a.weeklyTrips) && !DaysGiven(a) && a.weeklyTrips.value > 7 ==>
      r.value.deliveryDays == Some(DefaultDays)
  {
    if IntTruthy(a.weeklyTrips) then
      var trips := a.weeklyTrips.value;
      if !DaysGiven(a) then Ok(a.(deliveryDays := Some(PyPrefix(DefaultDays, trips))))
      else if |a.deliveryDays.value| != trips then Err(DayCountMismatch(|a.deliveryDays.value|, trips))
      else Ok(a)
    else Ok(a)
  }

  /** For a trip count of one to seven, every accepted record lists exactly that many days. */
  lemma ValidatedDaysMatchTrips(a: CustomerAttrs)
    requires a.weeklyTrips.Some? && 1 <= a.weeklyTrips.value <= 7
    requires ValidateCustomer(a).Ok?
    ensures ValidateCustomer(a).value.deliveryDays.Some?
    ensures |ValidateCustomer(a).value.deliveryDays.value| == a.weeklyTrips.value
  {
  }

  /** Re-validating an accepted record whose trip count is absent or from zero to seven changes nothing. */
  lemma ValidateIdempotentWithinAWeek(a: CustomerAttrs)
    requires ValidateCustomer(a).Ok?
    requires a.weeklyTrips.None? || 0 <= a.weeklyTrips.value <= 7
    ensures ValidateCustomer(ValidateCustomer(a).value) == ValidateCustomer(a)
  {
  }

  /**
    With more than seven trips and no days, the record is accepted with all
    seven days, and submitting that accepted record again is rejected.
   */
  lemma RevalidationRejectsMoreThanSevenTrips(a: CustomerAttrs)
    requires a.weeklyTrips.Some? && a.weeklyTrips.value > 7 && !DaysGiven(a)
    ensures ValidateCustomer(a).Ok?
    ensures ValidateCustomer(ValidateCustomer(a).value) == Err(DayCountMismatch(7, a.weeklyTrips.value))
  {
  }

  /**
    With a negative trip count above -7 and no days, the record is accepted
    with `7 + weekly_trips` days, and submitting that accepted record again
    is rejected; from -7 down, the days stay empty and re-validation accepts.
   */
  lemma RevalidationOfNegativeTrips(a: CustomerAttrs)
    requires a.weeklyTrips.Some? && a.weeklyTrips.value < 0 && !DaysGiven(a)
    ensures ValidateCustomer(a).Ok?
    ensures a.weeklyTrips.value > -7 ==>
      ValidateCustomer(ValidateCustomer(a).value) == Err(DayCountMismatch(7 + a.weeklyTrips.value, a.weeklyTrips.value))
    ensures a.weeklyTrips.value <= -7 ==>
      ValidateCustomer(ValidateCustomer(a).value) == ValidateCustomer(a)
  {
  }

  /**
    A negative trip count from -6 to -1 with no days is accepted with a
    non-empty default schedule, yet the daily generator never serves a
    customer with that trip count.
   */
  lemma AcceptedNegativeScheduleNeverServed(a: CustomerAttrs, c: Customer, today: Date, existing: set<nat>)
    requires a.weeklyTrips.Some? && -6 <= a.weeklyTrips.value < 0 && !DaysGiven(a)
    requires c.weeklyTrips == a.weeklyTrips
    ensures ValidateCustomer(a).Ok? && ValidateCustomer(a).value.deliveryDays.Some?
    ensures |ValidateCustomer(a).value.deliveryDays.value| == 7 + a.weeklyTrips.value > 0
    ensures !Tasks.Selected(c, today, existing)
  {
  }

  /** The default names, lower-cased, are the generator's weekday names in the same order. */
  lemma DefaultDaysLowerToWeekdays()
    ensures |DefaultDays| == |Tasks.Weekdays|
    ensures forall i :: 0 <= i < |DefaultDays| ==> Lower(DefaultDays[i]) == Tasks.Weekdays[i]
  {
    forall i | 0 <= i < |DefaultDays|
      ensures Lower(DefaultDays[i]) == Tasks.Weekdays[i]
    {
      var d := DefaultDays[i];
      assert Lower(d) == Tasks.Weekdays[i] by {
        assert |Lower(d)| == |Tasks.Weekdays[i]|;
        forall k | 0 <= k < |d|
          ensures Lower(d)[k] == Tasks.Weekdays[i][k]
        {
          assert LowerChar(d[k]) == Tasks.Weekdays[i][k];
        }
      }
    }
  }

  /**
    A schedule defaulted from `k` trips (one to seven) is served by the
    daily generator on exactly the first `k` weekdays, Monday first.
   */
  lemma {:induction false} DefaultScheduleServesFirstWeekdays(k: int, w: nat)
    requires 1 <= k <= 7 && w < 7
    ensures Tasks.AnyDayMatches(PyPrefix(DefaultDays, k), Tasks.Weekdays[w]) <==> w < k
  {
    DefaultDaysLowerToWeekdays();
    var days := PyPrefix(DefaultDays, k);
    if w < k {
      assert Lower(days[w]) == Tasks.Weekdays[w];
    } else {
      forall i | 0 <= i < |days|
        ensures Lower(days[i]) != Tasks.Weekdays[w]
      {
        assert Lower(days[i]) == Tasks.Weekdays[i];
      }
    }
  }

  // ----------------------------------------------------- order visibility

  const ProofImageKey: string := "proof_image"
  const FilledAmountKey: string := "filled_amount"
  const IsLateKey: string := "is_late"

  /** The request comes from a user whose role is `admin`. */
  predicate ViewerIsAdmin(request: Option<Requester>)
  {
    request.Some? && request.value.Member? && request.value.role == "admin"
  }

  /** The request comes from the driver assigned to the order. */
  predicate ViewerIsDriver(request: Option<Requester>, driver: Option<nat>)
  {
    request.Some? && request.value.Member? && driver == Some(request.value.id)
  }

  /**
    `OrderSerializer.get_is_late`: an admin gets the lateness verdict under
    the default thirty-minute allowance, anyone else gets null.
   */
  function IsLateField(o: Order, request: Option<Requester>): (v: Option<bool>)
    ensures v.Some? <==> ViewerIsAdmin(request)
    ensures v == Some(true) <==> ViewerIsAdmin(request) && o.createdAt.Some? && o.confirmedAt.Some?
                                 && o.confirmedAt.value - o.createdAt.value > 1800
  {
    if ViewerIsAdmin(request) then Some(IsDriverLate(o, DefaultLateMinutes)) else None
  }

  /**
    `OrderSerializer.to_representation`: confirmation fields are shown only
    to the order's driver and to admins, the lateness flag only to admins.
   */
  function Represent<V>(ret: map<string, V>, request: Option<Requester>, driver: Option<nat>): (r: map<string, V>)
    ensures forall k :: k in r ==> k in ret && r[k] == ret[k]
    ensures forall k :: k in ret && k != ProofImageKey && k != FilledAmountKey && k != IsLateKey ==> k in r
    ensures ProofImageKey in r <==> ProofImageKey in ret && (ViewerIsDriver(request, driver) || ViewerIsAdmin(request))
    ensures FilledAmountKey in r <==> FilledAmountKey in ret && (ViewerIsDriver(request, driver) || ViewerIsAdmin(request))
    ensures IsLateKey in r <==> IsLateKey in ret && ViewerIsAdmin(request)
  {
    var shown := if !(ViewerIsDriver(request, driver) || ViewerIsAdmin(request))
                 then ret - {ProofImageKey, FilledAmountKey} else ret;
    if !ViewerIsAdmin(request) then shown - {IsLateKey} else shown
  }

  /** An admin sees the full representation. */
  lemma AdminSeesEverything<V>(ret: map<string, V>, request: Option<Requester>, driver: Option<nat>)
    requires ViewerIsAdmin(request)
    ensures Represent(ret, request, driver) == ret
  {
  }

  /** Redacting an already redacted representation removes nothing more. */
  lemma RepresentIdempotent<V>(ret: map<string, V>, request: Option<Requester>, driver: Option<nat>)
    ensures Represent(Represent(ret, request, driver), request, driver) == Represent(ret, request, driver)
  {
    var once := Represent(ret, request, driver);
    var twice := Represent(once, request, driver);
    assert twice.Keys == once.Keys;
  }

  // ------------------------------------------------------------ complaints

  /** The validated fields of a complaint; `order` is optional. */
  datatype ComplaintData = ComplaintData(customer: nat, order: Option<Order>, issue: string, priority: string)

  datatype ComplaintError = OrderOfAnotherCustomer

  /** `ComplaintSerializer.validate`, the order-ownership check. */
  function ValidateComplaint(d: ComplaintData): (r: Result<ComplaintData, ComplaintError>)
    ensures r.Ok? <==> d.order.None? || d.order.value.customer == d.customer
    ensures r.Ok? ==> r.value == d
  {
    if d.order.Some? && d.order.value.customer != d.customer then Err(OrderOfAnotherCustomer)
    else Ok(d)
  }

  /**
    A complaint about an order the daily generator created for a customer is
    accepted for that customer and rejected for any other.
   */
  lemma ComplaintAboutGeneratedOrder(c: Customer, today: Date, complainant: nat, issue: string, priority: string)
    requires c.deliveryTime.Some?
    ensures ValidateComplaint(ComplaintData(complainant, Some(Tasks.OrderFor(c, today)), issue, priority)).Ok?
        <==> complainant == c.id
  {
  }
}

/**
  The daily order generator: every customer with a positive trip count and
  a delivery time, whose delivery days name today's weekday (ignoring case)
  and who has no order delivered today yet, gets one pending order for
  today at the customer's usual time.

  The date, the instant of the run, the customer snapshot and the stored
  orders are inputs; saving appends the new orders with `created_at` set to
  the instant of the run.
 */
module Tasks {
  import opened Common
  import opened Models

  const Weekdays: seq<string> :=
    ["monday", "tuesday", "wednesday", "thursday", "friday", "saturday", "sunday"]

  /** The lower-case name of the weekday of `today`. */
  function TodayWeekday(today: Date): (name: string)
    ensures name in Weekdays && Lower(name) == name
    ensures Weekday(today) == 0 <==> name == "monday"
    ensures Weekday(today) == 6 <==> name == "sunday"
  {
    Weekdays[Weekday(today)]
  }

  /** The customer filter of the query: a positive trip count and a delivery time. */
  function Eligible(c: Customer): (eligible: bool)
    ensures eligible ==> c.weeklyTrips.Some? && c.weeklyTrips.value > 0 && c.deliveryTime.Some?
    ensures eligible ==> IntTruthy(c.weeklyTrips)
    ensures c.weeklyTrips.None? || c.weeklyTrips.value <= 0 ==> !eligible
  {
    c.weeklyTrips.Some? && c.weeklyTrips.value > 0 && c.deliveryTime.Some?
  }

  /** Some listed day equals `name` once lower-cased. */
  ghost predicate ListsDay(days: seq<string>, name: string)
  {
    exists i :: 0 <= i < |days| && Lower(days[i]) == name
  }

  /** `any(day.lower() == name for day in days)`, scanned left to right. */
  function AnyDayMatches(days: seq<string>, name: string): (b: bool)
    ensures b <==> ListsDay(days, name)
    ensures b ==> |days| > 0
  {
    if |days| == 0 then false
    else if Lower(days[0]) == name then true
    else
      var rest := AnyDayMatches(days[1..], name);
      assert ListsDay(days[1..], name) ==> ListsDay(days, name) by {
        if ListsDay(days[1..], name) {
          var i :| 0 <= i < |days[1..]| && Lower(days[1..][i]) == name;
          assert Lower(days[i + 1]) == name;
        }
      }
      rest
  }

  /** The customer gets an order in a run for `today` with guard set `existing`. */
  predicate Selected(c: Customer, today: Date, existing: set<nat>)
  {
    Eligible(c) && AnyDayMatches(c.deliveryDays, TodayWeekday(today)) && c.id !in existing
  }

  /** The order built for a customer: today at the customer's time, copied fields, pending. */
  function OrderFor(c: Customer, today: Date): (o: Order)
    requires c.deliveryTime.Some?
    ensures o.status == Pending && o.customer == c.id && o.driver == c.driver
    ensures o.requiredGallons == c.gallons && o.customerLocation == c.locationLink
    ensures o.deliveryTime == Some(Combine(today, c.deliveryTime.value))
    ensures DeliveredOn(o, today)
  {
    NewOrder(c.id, c.driver, Some(Combine(today, c.deliveryTime.value)), c.gallons, c.locationLink)
  }

  /** The order's delivery instant falls on `day`. */
  predicate DeliveredOn(o: Order, day: Date)
  {
    o.deliveryTime.Some? && DateOf(o.deliveryTime.value) == day
  }

  /** The idempotence guard: ids of customers with an order delivered on `today`. */
  function ExistingCustomerIds(orders: seq<Order>, today: Date): (ids: set<nat>)
    ensures forall o :: o in orders && DeliveredOn(o, today) ==> o.customer in ids
    ensures forall id :: id in ids ==> exists o :: o in orders && DeliveredOn(o, today) && o.customer == id
  {
    set o | o in orders && DeliveredOn(o, today) :: o.customer
  }

  /** The orders one run creates, in customer order. */
  function Materialize(today: Date, customers: seq<Customer>, existing: set<nat>): (r: seq<Order>)
    ensures |r| <= |customers|
    ensures forall o :: o in r ==> o.status == Pending && DeliveredOn(o, today) && o.customer !in existing
    decreases |customers|
  {
    if |customers| == 0 then []
    else
      var last := customers[|customers| - 1];
      Materialize(today, customers[..|customers| - 1], existing)
        + (if Selected(last, today, existing) then [OrderFor(last, today)] else [])
  }

  /** Number of customers that pass the eligibility filter. */
  function EligibleCount(customers: seq<Customer>): nat
  {
    if |customers| == 0 then 0
    else EligibleCount(customers[..|customers| - 1]) + (if Eligible(customers[|customers| - 1]) then 1 else 0)
  }

  /** No two customers of the snapshot share an id. */
  predicate UniqueIds(customers: seq<Customer>)
  {
    forall i, j :: 0 <= i < |customers| && 0 <= j < |customers| && customers[i].id == customers[j].id ==> i == j
  }

  /** `o` is the order built for some selected customer of the snapshot. */
  ghost predicate OrderOfSelected(o: Order, today: Date, customers: seq<Customer>, existing: set<nat>)
  {
    exists j :: 0 <= j < |customers| && Selected(customers[j], today, existing) && o == OrderFor(customers[j], today)
  }

  /** Every created order is the order of a selected customer of the snapshot. */
  lemma {:induction false} MaterializeSound(today: Date, customers: seq<Customer>, existing: set<nat>)
    ensures forall o :: o in Materialize(today, customers, existing) ==>
      OrderOfSelected(o, today, customers, existing)
    decreases |customers|
  {
    if |customers| > 0 {
      var n := |customers| - 1;
      var front := customers[..n];
      MaterializeSound(today, front, existing);
      var r := Materialize(today, customers, existing);
      var r' := Materialize(today, front, existing);
      var tail := if Selected(customers[n], today, existing) then [OrderFor(customers[n], today)] else [];
      assert r == r' + tail;
      forall o | o in r
        ensures OrderOfSelected(o, today, customers, existing)
      {
        if o in r' {
          var j :| 0 <= j < |front| && Selected(front[j], today, existing) && o == OrderFor(front[j], today);
          assert customers[j] == front[j];
        } else {
          assert o in tail;
          assert Selected(customers[n], today, existing) && o == OrderFor(customers[n], today);
        }
      }
    }
  }

  /** Every selected customer of the snapshot receives its order. */
  lemma {:induction false} MaterializeComplete(today: Date, customers: seq<Customer>, existing: set<nat>, j: nat)
    requires j < |customers| && Selected(customers[j], today, existing)
    ensures OrderFor(customers[j], today) in Materialize(today, customers, existing)
    decreases |customers|
  {
    var n := |customers| - 1;
    if j < n {
      MaterializeComplete(today, customers[..n], existing, j);
    }
  }

  /** A run creates at most one order per customer passing the eligibility filter. */
  lemma {:induction false} MaterializeBoundedByEligible(today: Date, customers: seq<Customer>, existing: set<nat>)
    ensures |Materialize(today, customers, existing)| <= EligibleCount(customers)
    decreases |customers|
  {
    if |customers| > 0 {
      MaterializeBoundedByEligible(today, customers[..|customers| - 1], existing);
    }
  }

  /** No two orders of `orders` are for the same customer. */
  predicate DistinctCustomers(orders: seq<Order>)
  {
    forall i, j :: 0 <= i < j < |orders| ==> orders[i].customer != orders[j].customer
  }

  /** With distinct customer ids, no customer receives two orders in one run. */
  lemma {:induction false} MaterializeOnePerCustomer(today: Date, customers: seq<Customer>, existing: set<nat>)
    requires UniqueIds(customers)
    ensures DistinctCustomers(Materialize(today, customers, existing))
    decreases |customers|
  {
    if |customers| > 0 {
      var n := |customers| - 1;
      var front := customers[..n];
      assert UniqueIds(front) by {
        forall i, j | 0 <= i < |front| && 0 <= j < |front| && front[i].id == front[j].id
          ensures i == j
        {
          assert customers[i] == front[i] && customers[j] == front[j];
        }
      }
      MaterializeOnePerCustomer(today, front, existing);
      MaterializeSound(today, front, existing);
      var r := Materialize(today, customers, existing);
      var r' := Materialize(today, front, existing);
      var tail := if Selected(customers[n], today, existing) then [OrderFor(customers[n], today)] else [];
      assert r == r' + tail;
      assert DistinctCustomers(r');
      forall i, j | 0 <= i < j < |r|
        ensures r[i].customer != r[j].customer
      {
        if j >= |r'| {
          assert r[i] == r'[i] && r'[i] in r';
          var k :| 0 <= k < |front| && Selected(front[k], today, existing) && r'[i] == OrderFor(front[k], today);
          assert customers[k] == front[k] && r[i].customer == customers[k].id;
          assert tail != [] && r[j] == tail[0];
          assert r[j].customer == customers[n].id && k != n;
          assert customers[k].id != customers[n].id;
        } else {
          assert r[i] == r'[i] && r[j] == r'[j];
          assert r'[i].customer != r'[j].customer;
        }
      }
    }
  }

  /** A run in which no customer is selected creates no order. */
  lemma {:induction false} NothingSelectedNothingCreated(today: Date, customers: seq<Customer>, existing: set<nat>)
    requires forall j :: 0 <= j < |customers| ==> !Selected(customers[j], today, existing)
    ensures Materialize(today, customers, existing) == []
    decreases |customers|
  {
    if |customers| > 0 {
      var n := |customers| - 1;
      assert forall j :: 0 <= j < n ==> customers[..n][j] == customers[j];
      NothingSelectedNothingCreated(today, customers[..n], existing);
    }
  }

  /** With distinct ids, a customer that is not selected receives no order at all. */
  lemma NoOrderForUnselected(today: Date, customers: seq<Customer>, existing: set<nat>, j: nat)
    requires UniqueIds(customers)
    requires j < |customers| && !Selected(customers[j], today, existing)
    ensures forall o :: o in Materialize(today, customers, existing) ==> o.customer != customers[j].id
  {
    var r := Materialize(today, customers, existing);
    MaterializeSound(today, customers, existing);
    forall o | o in r
      ensures o.customer != customers[j].id
    {
      var i :| 0 <= i < |customers| && Selected(customers[i], today, existing) && o == OrderFor(customers[i], today);
    }
  }

  /**
    A customer whose trip count is zero or negative never gets an order, even
    when its delivery days name today.
   */
  lemma NonPositiveTripsNoOrder(today: Date, customers: seq<Customer>, existing: set<nat>, j: nat)
    requires UniqueIds(customers)
    requires j < |customers| && customers[j].weeklyTrips.Some? && customers[j].weeklyTrips.value <= 0
    ensures forall o :: o in Materialize(today, customers, existing) ==> o.customer != customers[j].id
  {
    NoOrderForUnselected(today, customers, existing, j);
  }

  /** In particular a customer listing no delivery days never gets an order. */
  lemma EmptyDaysNoOrder(today: Date, customers: seq<Customer>, existing: set<nat>, j: nat)
    requires UniqueIds(customers)
    requires j < |customers| && customers[j].deliveryDays == []
    ensures forall o :: o in Materialize(today, customers, existing) ==> o.customer != customers[j].id
  {
    NoOrderForUnselected(today, customers, existing, j);
  }

  /**
    What `bulk_create` stores for the new orders of a run at instant `now`:
    the same orders with `created_at` stamped to `now`.
   */
  function Stamped(orders: seq<Order>, now: Seconds): (r: seq<Order>)
    ensures |r| == |orders|
    ensures forall i :: 0 <= i < |r| ==> r[i] == orders[i].(createdAt := Some(now))
  {
    seq(|orders|, i requires 0 <= i < |orders| => orders[i].(createdAt := Some(now)))
  }

  /**
    Idempotence: once the orders of a run are stored, a second run for the
    same day over the same customers creates nothing.
   */
  lemma SecondRunCreatesNothing(today: Date, now: Seconds, customers: seq<Customer>, store: seq<Order>)
    ensures var first := Materialize(today, customers, ExistingCustomerIds(store, today));
      Materialize(today, customers, ExistingCustomerIds(store + Stamped(first, now), today)) == []
  {
    var e1 := ExistingCustomerIds(store, today);
    var first := Materialize(today, customers, e1);
    var saved := store + Stamped(first, now);
    var e2 := ExistingCustomerIds(saved, today);
    forall j | 0 <= j < |customers|
      ensures !Selected(customers[j], today, e2)
    {
      var c := customers[j];
      if Selected(c, today, e1) {
        MaterializeComplete(today, customers, e1, j);
        var k :| 0 <= k < |first| && first[k] == OrderFor(c, today);
        var stamped := Stamped(first, now)[k];
        assert stamped == OrderFor(c, today).(createdAt := Some(now));
        assert stamped == saved[|store| + k];
        assert stamped in saved && DeliveredOn(stamped, today);
      } else if c.id in e1 {
        var o :| o in store && DeliveredOn(o, today) && o.customer == c.id;
        assert o in saved;
      }
    }
    NothingSelectedNothingCreated(today, customers, e2);
  }

  /**
    A generated order is stamped with the instant of the run, so once it is
    confirmed its lateness measures the confirmation against that instant,
    whatever the order's delivery time.
   */
  lemma GeneratedOrderLateness(c: Customer, today: Date, now: Seconds, filledAmount: Option<int>,
                               proofImage: Option<string>, confirmedAt: Seconds, minutes: int)
    requires c.deliveryTime.Some?
    requires Confirm(OrderFor(c, today).(createdAt := Some(now)), filledAmount, proofImage, confirmedAt).Ok?
    ensures IsDriverLate(Confirm(OrderFor(c, today).(createdAt := Some(now)), filledAmount, proofImage, confirmedAt).value, minutes)
        <==> confirmedAt - now > minutes * 60
  {
    ConfirmLateness(OrderFor(c, today).(createdAt := Some(now)), filledAmount, proofImage, confirmedAt, minutes);
  }

  /**
    `generate_today_orders` run at instant `now`: computes the guard from the
    stored orders, scans the customers once, and saves the new orders with
    `created_at` set to `now`; `count` is the number reported back.
   */
  method GenerateTodayOrders(today: Date, now: Seconds, customers: seq<Customer>, store: seq<Order>)
    returns (created: seq<Order>, saved: seq<Order>, count: nat)
    ensures created == Materialize(today, customers, ExistingCustomerIds(store, today))
    ensures saved == store + Stamped(created, now)
    ensures count == |created|
  {
    var existing := ExistingCustomerIds(store, today);
    var todayName := TodayWeekday(today);
    created := [];
    var i := 0;
    while i < |customers|
      invariant 0 <= i <= |customers|
      invariant created == Materialize(today, customers[..i], existing)
    {
      var c := customers[i];
      assert customers[..i + 1][..i] == customers[..i];
      if Eligible(c) && AnyDayMatches(c.deliveryDays, todayName) && c.id !in existing {
        created := created + [OrderFor(c, today)];
      }
      i := i + 1;
    }
    assert customers[..|customers|] == customers;
    if |created| > 0 {
      saved := store + Stamped(created, now);
    } else {
      saved := store;
    }
    count := |created|;
  }
}

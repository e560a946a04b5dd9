/**
 * The seller order dashboard hook (`useOrders`): an in-memory order list, the
 * double-click confirmation lists for cancel and complete, and the derived
 * per-tab queries.
 *
 * Server calls are replaced by their outcome, given as a parameter; the
 * three-second `setTimeout` that disarms a pending id is the explicit event
 * `Expire`; calendar days are integer day numbers and "today" is a parameter.
 */
module UseOrders {
  import opened Common

  /** One line of an order: a won amount and a count. */
  datatype Item = Item(price: int, quantity: int)

  /**
   * An order as the dashboard sees it. `status` is the backend's integer code;
   * `createdDay` is the calendar day of `createdAt`.
   */
  datatype Order = Order(orderId: int, status: int, createdDay: int, orderItems: seq<Item>)

  const Received := 0
  const Done := 1
  const Canceled := 2

  /** `actionType`: the string 'cancel' selects cancel, any other value selects complete. */
  datatype Action = CancelAction | DoneAction

  /** The status a successful action writes. */
  function Target(a: Action): int {
    match a
    case CancelAction => Canceled
    case DoneAction => Done
  }

  // ---------------------------------------------------------------------------
  // Sequence vocabulary

  predicate NoDup<T(==)>(s: seq<T>) {
    forall i, j :: 0 <= i < j < |s| ==> s[i] != s[j]
  }

  /** `a` is `b` with some elements dropped, the rest kept in order. */
  predicate IsSubsequence<T(==)>(a: seq<T>, b: seq<T>)
    decreases |b|
  {
    if b == [] then a == []
    else (a != [] && a[0] == b[0] && IsSubsequence(a[1..], b[1..])) || IsSubsequence(a, b[1..])
  }

  /** The id list with every occurrence of `id` dropped, the rest kept in order. */
  function Without(ids: seq<int>, id: int): (r: seq<int>)
    ensures id !in r
    ensures |r| <= |ids|
  {
    if ids == [] then []
    else (if ids[0] == id then [] else [ids[0]]) + Without(ids[1..], id)
  }

  /** The order list with the status of the order(s) carrying `id` set to `st`, all else unchanged. */
  function WithStatus(orders: seq<Order>, id: int, st: int): (r: seq<Order>)
    ensures |r| == |orders|
  {
    if orders == [] then []
    else [if orders[0].orderId == id then orders[0].(status := st) else orders[0]]
         + WithStatus(orders[1..], id, st)
  }

  // ---------------------------------------------------------------------------
  // Derived queries

  /**
   * The property names every JavaScript object inherits from `Object.prototype`. Looking one of
   * them up in the tab-to-code object gives a method or the prototype object itself: a value that
   * is neither null nor undefined, so the -1 fallback does not apply, and that no number equals.
   */
  const InheritedKeys: set<string> := {
    "constructor", "hasOwnProperty", "isPrototypeOf", "propertyIsEnumerable",
    "toLocaleString", "toString", "valueOf", "__proto__",
    "__defineGetter__", "__defineSetter__", "__lookupGetter__", "__lookupSetter__"}

  /**
   * The status code a dashboard tab selects: received 0, done 1, canceled 2, an inherited
   * property name a non-number (None), and any other tab the fallback -1.
   */
  function StatusCode(orderType: string): (r: Option<int>)
    ensures r == None <==> orderType in InheritedKeys
    ensures r == Some(-1) <==> orderType !in InheritedKeys && orderType !in {"received", "done", "canceled"}
  {
    if orderType == "received" then Some(Received)
    else if orderType == "done" then Some(Done)
    else if orderType == "canceled" then Some(Canceled)
    else if orderType in InheritedKeys then None
    else Some(-1)
  }

  /** The filter callback of `filteredOrders`: strict equality never holds for a non-number code. */
  predicate Shown(o: Order, orderType: string, today: int, selectedDay: int) {
    && StatusCode(orderType) == Some(o.status)
    && o.createdDay == (if orderType == "received" then today else selectedDay)
  }

  /** `filteredOrders`. */
  function FilteredOrders(orders: seq<Order>, orderType: string, today: int, selectedDay: int): (r: seq<Order>)
    ensures |r| <= |orders|
    ensures forall i :: 0 <= i < |r| ==> Shown(r[i], orderType, today, selectedDay)
  {
    if orders == [] then []
    else (if Shown(orders[0], orderType, today, selectedDay) then [orders[0]] else [])
         + FilteredOrders(orders[1..], orderType, today, selectedDay)
  }

  /** `price * quantity` of one line. */
  function LineTotal(it: Item): int {
    it.price * it.quantity
  }

  /** The `reduce` over the items of an order, starting from 0. */
  function ItemsTotal(items: seq<Item>): int {
    if items == [] then 0 else LineTotal(items[0]) + ItemsTotal(items[1..])
  }

  /** `calculateOrderTotal`. */
  function OrderTotal(o: Order): int {
    ItemsTotal(o.orderItems)
  }

  /** The `reduce` of order totals over a list of orders, starting from 0. */
  function SumTotals(orders: seq<Order>): int {
    if orders == [] then 0 else OrderTotal(orders[0]) + SumTotals(orders[1..])
  }

  /** `tabTotal`. */
  function TabTotal(orders: seq<Order>, orderType: string, today: int, selectedDay: int): int {
    SumTotals(FilteredOrders(orders, orderType, today, selectedDay))
  }

  /** Reference definition of the tab total: every order contributes its total if shown, else 0. */
  function ShownTotal(orders: seq<Order>, orderType: string, today: int, selectedDay: int): int {
    if orders == [] then 0
    else (if Shown(orders[0], orderType, today, selectedDay) then OrderTotal(orders[0]) else 0)
         + ShownTotal(orders[1..], orderType, today, selectedDay)
  }

  predicate NonNegativeItems(items: seq<Item>) {
    forall i :: 0 <= i < |items| ==> items[i].price >= 0 && items[i].quantity >= 0
  }

  // ---------------------------------------------------------------------------
  // Lemmas: removing an id from a pending list

  /** The expiry filter removes exactly the given id: every other id stays. */
  lemma {:induction false} WithoutMembers(ids: seq<int>, id: int)
    ensures forall x :: x in Without(ids, id) <==> x in ids && x != id
  {
    if ids != [] {
      WithoutMembers(ids[1..], id);
      assert ids == [ids[0]] + ids[1..];
    }
  }

  /** The expiry filter keeps the remaining ids in their order. */
  lemma {:induction false} WithoutIsSubsequence(ids: seq<int>, id: int)
    ensures IsSubsequence(Without(ids, id), ids)
  {
    if ids != [] {
      WithoutIsSubsequence(ids[1..], id);
      if ids[0] != id {
        assert Without(ids, id) == [ids[0]] + Without(ids[1..], id);
        assert Without(ids, id)[1..] == Without(ids[1..], id);
      } else {
        assert Without(ids, id) == Without(ids[1..], id);
      }
    }
  }

  /** Removing an id twice is the same as removing it once. */
  lemma {:induction false} WithoutIdempotent(ids: seq<int>, id: int)
    ensures Without(Without(ids, id), id) == Without(ids, id)
  {
    WithoutMembers(ids, id);
    WithoutAbsent(Without(ids, id), id);
  }

  /** Removing an id that is not there changes nothing. */
  lemma {:induction false} WithoutAbsent(ids: seq<int>, id: int)
    requires id !in ids
    ensures Without(ids, id) == ids
  {
    if ids != [] {
      WithoutAbsent(ids[1..], id);
    }
  }

  /** Removing an id keeps a duplicate-free list duplicate-free. */
  lemma {:induction false} WithoutNoDup(ids: seq<int>, id: int)
    requires NoDup(ids)
    ensures NoDup(Without(ids, id))
  {
    if ids != [] {
      WithoutNoDup(ids[1..], id);
      WithoutMembers(ids[1..], id);
      var r := Without(ids, id);
      if ids[0] != id {
        assert r == [ids[0]] + Without(ids[1..], id);
        assert ids[0] !in ids[1..];
      }
    }
  }

  /** Appending an absent id keeps a list duplicate-free. */
  lemma AppendAbsentNoDup(ids: seq<int>, id: int)
    requires NoDup(ids) && id !in ids
    ensures NoDup(ids + [id])
  {
  }

  // ---------------------------------------------------------------------------
  // Lemmas: updateOrderStatus

  /**
   * `updateOrderStatus` keeps length and order; at each position it sets the status of an
   * order with the matching id and leaves any other order as it was.
   */
  lemma {:induction false} WithStatusAt(orders: seq<Order>, id: int, st: int)
    ensures |WithStatus(orders, id, st)| == |orders|
    ensures forall i :: 0 <= i < |orders| ==>
      WithStatus(orders, id, st)[i]
        == if orders[i].orderId == id then orders[i].(status := st) else orders[i]
  {
    if orders != [] {
      WithStatusAt(orders[1..], id, st);
      var r := WithStatus(orders, id, st);
      forall i | 0 <= i < |orders|
        ensures r[i] == if orders[i].orderId == id then orders[i].(status := st) else orders[i]
      {
        if i > 0 {
          assert r[i] == WithStatus(orders[1..], id, st)[i - 1];
        }
      }
    }
  }

  /**
   * Every matching order ends with the new status; every other order, and every field
   * other than `status`, is unchanged.
   */
  lemma UpdateStatusFields(orders: seq<Order>, id: int, st: int)
    ensures var r := WithStatus(orders, id, st);
      && |r| == |orders|
      && (forall i :: 0 <= i < |r| ==>
            && r[i].orderId == orders[i].orderId
            && r[i].createdDay == orders[i].createdDay
            && r[i].orderItems == orders[i].orderItems
            && r[i].status == (if orders[i].orderId == id then st else orders[i].status))
  {
    WithStatusAt(orders, id, st);
  }

  /** Applying the same status update twice is the same as applying it once. */
  lemma UpdateStatusIdempotent(orders: seq<Order>, id: int, st: int)
    ensures WithStatus(WithStatus(orders, id, st), id, st) == WithStatus(orders, id, st)
  {
    var once := WithStatus(orders, id, st);
    WithStatusAt(orders, id, st);
    WithStatusAt(once, id, st);
  }

  // ---------------------------------------------------------------------------
  // Lemmas: filteredOrders

  /** The shown orders are exactly the orders that pass the tab's status and day test. */
  lemma {:induction false} FilteredMembers(orders: seq<Order>, orderType: string, today: int, selectedDay: int)
    ensures forall o :: (o in FilteredOrders(orders, orderType, today, selectedDay)
      <==> o in orders && Shown(o, orderType, today, selectedDay))
  {
    if orders != [] {
      FilteredMembers(orders[1..], orderType, today, selectedDay);
      assert orders == [orders[0]] + orders[1..];
    }
  }

  /** `filteredOrders` keeps the dashboard's order: it is a sub-list of `orders`. */
  lemma {:induction false} FilteredIsSubsequence(orders: seq<Order>, orderType: string, today: int, selectedDay: int)
    ensures IsSubsequence(FilteredOrders(orders, orderType, today, selectedDay), orders)
  {
    if orders != [] {
      var rest := FilteredOrders(orders[1..], orderType, today, selectedDay);
      FilteredIsSubsequence(orders[1..], orderType, today, selectedDay);
      if Shown(orders[0], orderType, today, selectedDay) {
        assert FilteredOrders(orders, orderType, today, selectedDay) == [orders[0]] + rest;
        assert FilteredOrders(orders, orderType, today, selectedDay)[1..] == rest;
      } else {
        assert FilteredOrders(orders, orderType, today, selectedDay) == rest;
      }
    }
  }

  /**
   * A tab type that is neither a tab name nor an inherited property selects status code -1, so
   * the tab is empty as long as no order carries that code (the backend's codes are 0, 1 and 2).
   */
  lemma {:induction false} FilteredUnknownTypeEmpty(orders: seq<Order>, orderType: string, today: int, selectedDay: int)
    requires orderType != "received" && orderType != "done" && orderType != "canceled"
    requires forall i :: 0 <= i < |orders| ==> orders[i].status != -1
    ensures FilteredOrders(orders, orderType, today, selectedDay) == []
  {
    if orders != [] {
      FilteredUnknownTypeEmpty(orders[1..], orderType, today, selectedDay);
    }
  }

  /** A tab named after an inherited property shows nothing, whatever the orders' statuses. */
  lemma {:induction false} FilteredInheritedKeyEmpty(orders: seq<Order>, orderType: string, today: int, selectedDay: int)
    requires orderType in InheritedKeys
    ensures FilteredOrders(orders, orderType, today, selectedDay) == []
  {
    if orders != [] {
      FilteredInheritedKeyEmpty(orders[1..], orderType, today, selectedDay);
    }
  }

  /**
   * `filteredOrders` keeps every copy of a shown order and no copy of a hidden one: the tab
   * holds each order exactly as often as the list does when it is shown, and never otherwise.
   */
  lemma {:induction false} FilteredCounts(orders: seq<Order>, orderType: string, today: int, selectedDay: int)
    ensures forall o ::
      multiset(FilteredOrders(orders, orderType, today, selectedDay))[o] ==
        (if Shown(o, orderType, today, selectedDay) then multiset(orders)[o] else 0)
  {
    if orders != [] {
      FilteredCounts(orders[1..], orderType, today, selectedDay);
      assert orders == [orders[0]] + orders[1..];
      assert multiset(orders) == multiset([orders[0]]) + multiset(orders[1..]);
      var rest := FilteredOrders(orders[1..], orderType, today, selectedDay);
      if Shown(orders[0], orderType, today, selectedDay) {
        assert multiset(FilteredOrders(orders, orderType, today, selectedDay)) == multiset([orders[0]]) + multiset(rest);
      } else {
        assert FilteredOrders(orders, orderType, today, selectedDay) == rest;
      }
    }
  }

  // ---------------------------------------------------------------------------
  // Lemmas: totals

  /** The `reduce` step: adding a line at the end adds its `price * quantity`. */
  lemma {:induction false} ItemsTotalAppend(items: seq<Item>, it: Item)
    ensures ItemsTotal(items + [it]) == ItemsTotal(items) + it.price * it.quantity
  {
    if items == [] {
      assert items + [it] == [it];
    } else {
      assert (items + [it])[1..] == items[1..] + [it];
      ItemsTotalAppend(items[1..], it);
    }
  }

  /** An order with no items totals 0; with non-negative prices and quantities the total is non-negative. */
  lemma {:induction false} OrderTotalNonNegative(o: Order)
    requires NonNegativeItems(o.orderItems)
    ensures OrderTotal(o) >= 0
    ensures o.orderItems == [] ==> OrderTotal(o) == 0
  {
    ItemsTotalNonNegative(o.orderItems);
  }

  lemma {:induction false} ItemsTotalNonNegative(items: seq<Item>)
    requires NonNegativeItems(items)
    ensures ItemsTotal(items) >= 0
  {
    if items != [] {
      ItemsTotalNonNegative(items[1..]);
      assert items[0].price >= 0 && items[0].quantity >= 0;
    }
  }

  /** The tab total counts each shown order's total once and nothing else. */
  lemma {:induction false} TabTotalIsShownTotal(orders: seq<Order>, orderType: string, today: int, selectedDay: int)
    ensures TabTotal(orders, orderType, today, selectedDay) == ShownTotal(orders, orderType, today, selectedDay)
  {
    if orders != [] {
      TabTotalIsShownTotal(orders[1..], orderType, today, selectedDay);
      var rest := FilteredOrders(orders[1..], orderType, today, selectedDay);
      if Shown(orders[0], orderType, today, selectedDay) {
        assert FilteredOrders(orders, orderType, today, selectedDay) == [orders[0]] + rest;
      } else {
        assert FilteredOrders(orders, orderType, today, selectedDay) == rest;
      }
    }
  }

  /** With non-negative prices and quantities on every order, the tab total is non-negative. */
  lemma {:induction false} TabTotalNonNegative(orders: seq<Order>, orderType: string, today: int, selectedDay: int)
    requires forall i :: 0 <= i < |orders| ==> NonNegativeItems(orders[i].orderItems)
    ensures TabTotal(orders, orderType, today, selectedDay) >= 0
  {
    TabTotalIsShownTotal(orders, orderType, today, selectedDay);
    ShownTotalNonNegative(orders, orderType, today, selectedDay);
  }

  lemma {:induction false} ShownTotalNonNegative(orders: seq<Order>, orderType: string, today: int, selectedDay: int)
    requires forall i :: 0 <= i < |orders| ==> NonNegativeItems(orders[i].orderItems)
    ensures ShownTotal(orders, orderType, today, selectedDay) >= 0
  {
    if orders != [] {
      ShownTotalNonNegative(orders[1..], orderType, today, selectedDay);
      OrderTotalNonNegative(orders[0]);
    }
  }

  /** The received tab of three orders shows only today's received one. */
  lemma FilterExample(today: int)
    ensures var a := Order(1, Received, today, []);
      var b := Order(2, Done, today, []);
      var c := Order(3, Canceled, today - 1, []);
      FilteredOrders([a, b, c], "received", today, today) == [a]
  {
    var a := Order(1, Received, today, []);
    var b := Order(2, Done, today, []);
    var c := Order(3, Canceled, today - 1, []);
    assert [a, b, c][1..] == [b, c] && [b, c][1..] == [c] && [c][1..] == [];
    assert StatusCode("received") == Some(Received);
    assert Shown(a, "received", today, today) && !Shown(b, "received", today, today);
    assert !Shown(c, "received", today, today);
    assert FilteredOrders([c], "received", today, today) == [];
    assert FilteredOrders([b, c], "received", today, today) == [];
  }

  /** One order of 1000 x 2 and 500 x 1 makes a tab total of 2500. */
  lemma TotalExample(today: int)
    ensures var o := Order(1, Received, today, [Item(1000, 2), Item(500, 1)]);
      TabTotal([o], "received", today, today) == 2500
  {
    var o := Order(1, Received, today, [Item(1000, 2), Item(500, 1)]);
    assert StatusCode("received") == Some(Received);
    assert Shown(o, "received", today, today);
    assert FilteredOrders([o], "received", today, today) == [o];
    assert [Item(1000, 2), Item(500, 1)][1..] == [Item(500, 1)];
    assert ItemsTotal([Item(500, 1)]) == 500;
    assert OrderTotal(o) == 2500;
    assert [o][1..] == [];
    assert SumTotals([o]) == 2500;
  }

  // ---------------------------------------------------------------------------
  // The hook's state

  class OrderDashboard {
    /** `orders`. */
    var orders: seq<Order>
    /** `isLoading`. */
    var isLoading: bool
    /** `doneClickCountSetting`: when true a second request confirms the first. */
    var doubleClick: bool
    /** `clickedCancelOrders`. */
    var pendingCancel: seq<int>
    /** `clickedDoneOrders`. */
    var pendingDone: seq<int>

    /** Each pending list holds an id at most once. */
    ghost predicate Valid()
      reads this
    {
      NoDup(pendingCancel) && NoDup(pendingDone)
    }

    /** The pending list that belongs to an action. */
    function PendingFor(a: Action): seq<int>
      reads this
    {
      match a
      case CancelAction => pendingCancel
      case DoneAction => pendingDone
    }

    /** The hook's initial state, before either fetch completes. */
    constructor ()
      ensures Valid()
      ensures orders == [] && isLoading && !doubleClick
      ensures pendingCancel == [] && pendingDone == []
    {
      orders := [];
      isLoading := true;
      doubleClick := false;
      pendingCancel := [];
      pendingDone := [];
    }

    /** `addNewOrder`: appends at the end, with no de-duplication by id. */
    method AddNewOrder(o: Order)
      requires Valid()
      modifies this`orders
      ensures Valid()
      ensures orders == old(orders) + [o]
    {
      orders := orders + [o];
    }

    /**
     * `fetchOrders`: `response` is the parsed list, or None when the request fails or the
     * response is not ok. Loading ends in every case; a failure keeps the current list.
     */
    method FetchOrders(response: Option<seq<Order>>)
      requires Valid()
      modifies this`orders, this`isLoading
      ensures Valid()
      ensures !isLoading
      ensures orders == if response.Some? then response.value else old(orders)
    {
      isLoading := true;
      if response.Some? {
        orders := response.value;
      }
      isLoading := false;
    }

    /** The count-setting fetch: a failure keeps the current setting. */
    method FetchDoubleClickSetting(response: Option<bool>)
      requires Valid()
      modifies this`doubleClick
      ensures Valid()
      ensures doubleClick == if response.Some? then response.value else old(doubleClick)
    {
      if response.Some? {
        doubleClick := response.value;
      }
    }

    /** `updateOrderStatus`. */
    method UpdateOrderStatus(id: int, newStatus: int)
      requires Valid()
      modifies this`orders
      ensures Valid()
      ensures orders == WithStatus(old(orders), id, newStatus)
    {
      orders := WithStatus(orders, id, newStatus);
    }

    /**
     * `handleCancel` / `handleDone`: `serverOk` is whether the PUT succeeded. Success writes
     * status 2 (cancel) or 1 (complete); failure leaves the orders as they were.
     */
    method PerformAction(a: Action, id: int, serverOk: bool)
      requires Valid()
      modifies this`orders
      ensures Valid()
      ensures orders == if serverOk then WithStatus(old(orders), id, Target(a)) else old(orders)
    {
      if serverOk {
        UpdateOrderStatus(id, Target(a));
      }
    }

    /**
     * `handleAction`. `serverOk` is the outcome of the PUT if the action is performed.
     * Without the double-click setting the action is performed at once and the pending lists
     * are untouched. With it, a first request arms the id and performs nothing; a request for
     * an armed id performs the action and then disarms the id.
     */
    method HandleAction(id: int, a: Action, serverOk: bool) returns (performed: bool)
      requires Valid()
      modifies this`orders, this`pendingCancel, this`pendingDone
      ensures Valid()
      ensures performed == (!doubleClick || id in old(PendingFor(a)))
      ensures orders == if performed && serverOk then WithStatus(old(orders), id, Target(a)) else old(orders)
      ensures !doubleClick ==> PendingFor(a) == old(PendingFor(a))
      ensures doubleClick && id !in old(PendingFor(a)) ==> PendingFor(a) == old(PendingFor(a)) + [id]
      ensures doubleClick && id in old(PendingFor(a)) ==> PendingFor(a) == Without(old(PendingFor(a)), id)
      ensures a == CancelAction ==> pendingDone == old(pendingDone)
      ensures a == DoneAction ==> pendingCancel == old(pendingCancel)
    {
      var pending := if a == CancelAction then pendingCancel else pendingDone;
      if doubleClick {
        if id !in pending {
          AppendAbsentNoDup(pending, id);
          SetPending(a, pending + [id]);
          performed := false;
        } else {
          PerformAction(a, id, serverOk);
          WithoutNoDup(pending, id);
          SetPending(a, Without(pending, id));
          performed := true;
        }
      } else {
        PerformAction(a, id, serverOk);
        performed := true;
      }
    }

    /**
     * The timer callback three seconds after arming: removes the id from that action's list
     * and changes nothing else.
     */
    method Expire(a: Action, id: int)
      requires Valid()
      modifies this`pendingCancel, this`pendingDone
      ensures Valid()
      ensures PendingFor(a) == Without(old(PendingFor(a)), id)
      ensures a == CancelAction ==> pendingDone == old(pendingDone)
      ensures a == DoneAction ==> pendingCancel == old(pendingCancel)
    {
      var pending := if a == CancelAction then pendingCancel else pendingDone;
      WithoutNoDup(pending, id);
      SetPending(a, Without(pending, id));
    }

    /** `setClickedCancelOrders` / `setClickedDoneOrders`. */
    method SetPending(a: Action, ids: seq<int>)
      modifies this`pendingCancel, this`pendingDone
      ensures PendingFor(a) == ids
      ensures a == CancelAction ==> pendingDone == old(pendingDone)
      ensures a == DoneAction ==> pendingCancel == old(pendingCancel)
    {
      if a == CancelAction {
        pendingCancel := ids;
      } else {
        pendingDone := ids;
      }
    }
  }

  /**
   * The confirmation flow on order 5 and order 7: one cancel request followed by the expiry
   * performs nothing and leaves 5 disarmed; two requests perform the cancel once; with the
   * setting off a complete request is performed at once and arms nothing.
   */
  method ConfirmationScenarios(today: int)
  {
    var d := new OrderDashboard();
    d.FetchOrders(Some([Order(5, Received, today, []), Order(7, Received, today, [])]));
    d.FetchDoubleClickSetting(Some(true));

    var performed := d.HandleAction(5, CancelAction, true);
    assert !performed && d.pendingCancel == [5];
    d.Expire(CancelAction, 5);
    assert d.pendingCancel == [] && d.orders[0].status == Received;

    performed := d.HandleAction(5, CancelAction, true);
    assert !performed;
    performed := d.HandleAction(5, CancelAction, true);
    assert performed && d.pendingCancel == [];
    assert d.orders[0].status == Canceled;

    d.FetchDoubleClickSetting(Some(false));
    performed := d.HandleAction(7, DoneAction, true);
    assert performed && d.pendingDone == [];
    assert d.orders[1].status == Done;
  }
}

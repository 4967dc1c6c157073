/**
 * The order ledger (src/lib/orders.ts): a most-recent-first list of orders
 * kept under one storage key, with status updates, deletion and queries.
 */
module Orders {
  import opened Wrappers
  import Strings
  import Lists

  /** Any status may follow any other: the ledger enforces no transition table. */
  datatype Status = Pending | Confirmed | Preparing | Ready | Delivered | Cancelled

  datatype LineItem = LineItem(id: int, name: string, quantity: int, price: string, image: string, category: string)

  /** What the caller hands to `add`: an order without its id and timestamps. */
  datatype OrderDraft = OrderDraft(
    customerName: string, customerPhone: string, customerAddress: string,
    items: seq<LineItem>, totalPrice: int, status: Status, orderDate: string,
    notes: Option<string>)

  datatype Order = Order(
    id: string,
    customerName: string, customerPhone: string, customerAddress: string,
    items: seq<LineItem>, totalPrice: int, status: Status, orderDate: string,
    createdAt: string, updatedAt: string,
    notes: Option<string>)

  /** The statistics of `getStats`, without the day count. */
  datatype OrderStats = OrderStats(totalOrders: nat, pendingOrders: nat, completedOrders: nat, totalRevenue: int)

  /** The draft fields of an order: everything but its id and timestamps. */
  function DraftOf(o: Order): OrderDraft
  {
    OrderDraft(o.customerName, o.customerPhone, o.customerAddress, o.items, o.totalPrice, o.status, o.orderDate, o.notes)
  }

  /**
   * The record `add` stores: the draft's fields, the given id, and the two
   * clock readings taken for `createdAt` and `updatedAt`.
   */
  function Stamped(d: OrderDraft, id: string, createdAt: string, updatedAt: string): (o: Order)
    ensures DraftOf(o) == d
    ensures o.id == id && o.createdAt == createdAt && o.updatedAt == updatedAt
  {
    Order(id, d.customerName, d.customerPhone, d.customerAddress, d.items, d.totalPrice, d.status, d.orderDate,
          createdAt, updatedAt, d.notes)
  }

  // ---------------------------------------------------------------------------
  // Lookup
  // ---------------------------------------------------------------------------

  function HasId(id: string): Order -> bool
  {
    (o: Order) => o.id == id
  }

  /** `orders.findIndex(order => order.id === id)`, with None for -1. */
  function IndexOfId(orders: seq<Order>, id: string): (r: Option<nat>)
    ensures r.Some? ==> r.value < |orders| && orders[r.value].id == id
    ensures r.Some? ==> forall j :: 0 <= j < r.value ==> orders[j].id != id
    ensures r.None? <==> forall j :: 0 <= j < |orders| ==> orders[j].id != id
  {
    Lists.FirstIndex(orders, HasId(id))
  }

  /** `getById`: the first order with that id, or None for null. */
  function FindById(orders: seq<Order>, id: string): (r: Option<Order>)
    ensures r.Some? ==> r.value.id == id && r.value in orders
    ensures r.None? <==> forall j :: 0 <= j < |orders| ==> orders[j].id != id
  {
    match IndexOfId(orders, id)
    case Some(i) => Some(orders[i])
    case None => None
  }

  // ---------------------------------------------------------------------------
  // Updates
  // ---------------------------------------------------------------------------

  /** `notes || current`: a missing or empty new note keeps the current one. */
  function NotesAfter(current: Option<string>, given: Option<string>): (r: Option<string>)
    ensures given.Some? && given.value != "" ==> r == given
    ensures given.None? || given.value == "" ==> r == current
  {
    if given.Some? && given.value != "" then given else current
  }

  /** The record `updateStatus` writes: new status, notes and update time, every other field kept. */
  function Restamped(o: Order, status: Status, notes: Option<string>, now: string): (r: Order)
    ensures r.status == status && r.updatedAt == now && r.notes == NotesAfter(o.notes, notes)
    ensures r.id == o.id && r.createdAt == o.createdAt
    ensures DraftOf(r) == DraftOf(o).(status := status, notes := NotesAfter(o.notes, notes))
  {
    o.(status := status, notes := NotesAfter(o.notes, notes), updatedAt := now)
  }

  function OrderId(o: Order): string { o.id }

  /** `orders.filter(order => order.id !== id)` (DeleteSpec states what survives). */
  function WithoutId(orders: seq<Order>, id: string): seq<Order>
  {
    Lists.RemoveKey(orders, OrderId, id)
  }

  // ---------------------------------------------------------------------------
  // Queries
  // ---------------------------------------------------------------------------

  function HasStatus(status: Status): Order -> bool
  {
    (o: Order) => o.status == status
  }

  /** `getByStatus`: the orders with exactly that status, in ledger order. */
  function ByStatus(orders: seq<Order>, status: Status): (r: seq<Order>)
    ensures forall i :: 0 <= i < |r| ==> r[i].status == status && r[i] in orders
    ensures forall i :: 0 <= i < |orders| && orders[i].status == status ==> orders[i] in r
    ensures forall x :: multiset(r)[x] == if x.status == status then multiset(orders)[x] else 0
  {
    Lists.FilterCount(orders, HasStatus(status));
    var r := Lists.Filter(orders, HasStatus(status));
    assert forall i :: 0 <= i < |r| ==> HasStatus(status)(r[i]);
    assert forall i :: 0 <= i < |orders| && orders[i].status == status ==> HasStatus(status)(orders[i]);
    r
  }

  /** The statuses `getStats` counts as pending: every one before delivery. */
  predicate InPendingBucket(s: Status)
  {
    s == Pending || s == Confirmed || s == Preparing || s == Ready
  }

  function IsOpen(): Order -> bool
  {
    (o: Order) => InPendingBucket(o.status)
  }

  /** The sum of the `totalPrice` fields. */
  function SumTotals(orders: seq<Order>): int
  {
    if orders == [] then 0 else orders[0].totalPrice + SumTotals(orders[1..])
  }

  /** `getStats`: count, open orders, delivered orders, and revenue from delivered orders only. */
  function Stats(orders: seq<Order>): (st: OrderStats)
    ensures st.totalOrders == |orders|
    ensures st.pendingOrders + st.completedOrders <= st.totalOrders
  {
    var delivered := Lists.Filter(orders, HasStatus(Delivered));
    var open := Lists.Filter(orders, IsOpen());
    Lists.FilterDisjoint(orders, IsOpen(), HasStatus(Delivered));
    OrderStats(|orders|, |open|, |delivered|, SumTotals(delivered))
  }

  /**
   * `search`: the customer name, the address or an item name contains the
   * query ignoring case, or the phone contains the query as typed.
   */
  function Matches(o: Order, query: string): (b: bool)
    ensures query == [] ==> b
    ensures Strings.Contains(o.customerPhone, query) ==> b
    ensures Strings.Contains(Strings.Lower(o.customerName), Strings.Lower(query)) ==> b
    ensures Strings.Contains(Strings.Lower(o.customerAddress), Strings.Lower(query)) ==> b
  {
    Strings.ContainsEmpty(o.customerPhone);
    var q := Strings.Lower(query);
    || Strings.Contains(Strings.Lower(o.customerName), q)
    || Strings.Contains(o.customerPhone, query)
    || Strings.Contains(Strings.Lower(o.customerAddress), q)
    || exists i :: 0 <= i < |o.items| && Strings.Contains(Strings.Lower(o.items[i].name), q)
  }

  function MatchesQuery(query: string): Order -> bool
  {
    (o: Order) => Matches(o, query)
  }

  function Search(orders: seq<Order>, query: string): (r: seq<Order>)
    ensures forall i :: 0 <= i < |r| ==> Matches(r[i], query) && r[i] in orders
    ensures forall i :: 0 <= i < |orders| && Matches(orders[i], query) ==> orders[i] in r
    ensures forall x :: multiset(r)[x] == if Matches(x, query) then multiset(orders)[x] else 0
  {
    Lists.FilterCount(orders, MatchesQuery(query));
    var r := Lists.Filter(orders, MatchesQuery(query));
    assert forall i :: 0 <= i < |r| ==> MatchesQuery(query)(r[i]);
    assert forall i :: 0 <= i < |orders| && Matches(orders[i], query) ==> MatchesQuery(query)(orders[i]);
    r
  }

  // ---------------------------------------------------------------------------
  // Properties
  // ---------------------------------------------------------------------------

  /** Looking up the id of the order just added finds exactly that order. */
  lemma AddThenFind(orders: seq<Order>, d: OrderDraft, id: string, createdAt: string, updatedAt: string)
    ensures FindById([Stamped(d, id, createdAt, updatedAt)] + orders, id) == Some(Stamped(d, id, createdAt, updatedAt))
  {
  }

  /** `getById` returns the order at the first position holding that id. */
  lemma FindFirst(orders: seq<Order>, id: string, k: nat)
    requires k < |orders| && orders[k].id == id
    requires forall j :: 0 <= j < k ==> orders[j].id != id
    ensures FindById(orders, id) == Some(orders[k])
  {
    assert IndexOfId(orders, id).Some?;
  }

  /** Deleting an id no order has changes nothing. */
  lemma DeleteAbsent(orders: seq<Order>, id: string)
    requires forall i :: 0 <= i < |orders| ==> orders[i].id != id
    ensures WithoutId(orders, id) == orders
  {
    Lists.RemoveAbsentKey(orders, OrderId, id);
  }

  /**
   * Deletion drops every order with that id, keeps every other one with all
   * its copies and in order, and shrinks the ledger exactly when the id occurs.
   */
  lemma DeleteSpec(orders: seq<Order>, id: string)
    ensures FindById(WithoutId(orders, id), id).None?
    ensures forall i :: 0 <= i < |orders| && orders[i].id != id ==> orders[i] in WithoutId(orders, id)
    ensures forall x :: multiset(WithoutId(orders, id))[x] == if x.id != id then multiset(orders)[x] else 0
    ensures Lists.IsSubsequence(WithoutId(orders, id), orders)
    ensures |WithoutId(orders, id)| < |orders| <==> exists i :: 0 <= i < |orders| && orders[i].id == id
  {
    var r := WithoutId(orders, id);
    assert forall i :: 0 <= i < |r| ==> OrderId(r[i]) != id;
  }

  /** Adding an order counts it once in the total and once in the bucket of its status. */
  lemma StatsAfterAdd(orders: seq<Order>, o: Order)
    ensures Stats([o] + orders).totalOrders == Stats(orders).totalOrders + 1
    ensures Stats([o] + orders).pendingOrders == Stats(orders).pendingOrders + (if InPendingBucket(o.status) then 1 else 0)
    ensures Stats([o] + orders).completedOrders == Stats(orders).completedOrders + (if o.status == Delivered then 1 else 0)
    ensures Stats([o] + orders).totalRevenue == Stats(orders).totalRevenue + (if o.status == Delivered then o.totalPrice else 0)
  {
    Lists.FilterCons(o, orders, IsOpen());
    Lists.FilterCons(o, orders, HasStatus(Delivered));
    var rest := Lists.Filter(orders, HasStatus(Delivered));
    if o.status == Delivered {
      assert ([o] + rest)[1..] == rest;
    } else {
      assert [] + rest == rest;
    }
  }

  /** One pending, one delivered and one cancelled order: three in all, one in each counted bucket, the delivered total as revenue. */
  lemma StatsExample(a: Order, b: Order, c: Order)
    requires a.status == Pending && b.status == Delivered && c.status == Cancelled
    ensures Stats([a, b, c]) == OrderStats(3, 1, 1, b.totalPrice)
  {
    var s0: seq<Order> := [];
    var s1 := [c] + s0;
    assert Stats(s1) == OrderStats(1, 0, 0, 0) by {
      assert Stats(s0) == OrderStats(0, 0, 0, 0);
      StatsAfterAdd(s0, c);
    }
    var s2 := [b] + s1;
    assert Stats(s2) == OrderStats(2, 0, 1, b.totalPrice) by {
      StatsAfterAdd(s1, b);
    }
    var s3 := [a] + s2;
    assert Stats(s3) == OrderStats(3, 1, 1, b.totalPrice) by {
      StatsAfterAdd(s2, a);
    }
    assert s3 == [a, b, c];
  }

  /** Adding an order and deleting it again leaves an empty ledger empty. */
  lemma AddThenDeleteExample(d: OrderDraft, id: string, createdAt: string, updatedAt: string)
    ensures WithoutId([Stamped(d, id, createdAt, updatedAt)], id) == []
    ensures Stats(WithoutId([Stamped(d, id, createdAt, updatedAt)], id)).totalOrders == 0
  {
    assert [Stamped(d, id, createdAt, updatedAt)][1..] == [];
  }

  /** The empty query matches every order, so `search("")` returns the whole ledger. */
  lemma SearchEmptyQuery(orders: seq<Order>)
    ensures Search(orders, "") == orders
  {
    forall i | 0 <= i < |orders| ensures MatchesQuery("")(orders[i]) {
      Strings.ContainsEmpty(Strings.Lower(orders[i].customerName));
    }
    Lists.FilterKeepsAll(orders, MatchesQuery(""));
  }

  /** Both filters keep the ledger's order. */
  lemma QueriesKeepOrder(orders: seq<Order>, status: Status, query: string)
    ensures Lists.IsSubsequence(ByStatus(orders, status), orders)
    ensures Lists.IsSubsequence(Search(orders, query), orders)
  {
    Lists.FilterIsSubsequence(orders, HasStatus(status));
    Lists.FilterIsSubsequence(orders, MatchesQuery(query));
  }

  // ---------------------------------------------------------------------------
  // The service over its stored collection
  // ---------------------------------------------------------------------------

  /**
   * The order service.  `orders` is the collection stored under the `orders`
   * key; every operation reads it in full and writes it back.
   */
  class OrderService {
    var orders: seq<Order>

    constructor (stored: seq<Order>)
      ensures orders == stored
    {
      orders := stored;
    }

    /** `getAll`: the stored collection, most recent first. */
    function GetAll(): seq<Order>
      reads this
    {
      orders
    }

    /** `add`: stamp the draft and put it in front of every earlier order. */
    method Add(draft: OrderDraft, id: string, createdAt: string, updatedAt: string) returns (o: Order)
      modifies this
      ensures o == Stamped(draft, id, createdAt, updatedAt)
      ensures orders == [o] + old(orders)
      ensures |orders| == |old(orders)| + 1 && orders[0] == o && orders[1..] == old(orders)
    {
      o := Stamped(draft, id, createdAt, updatedAt);
      orders := [o] + orders;
    }

    /** `updateStatus`: None, and nothing written, for an unknown id; otherwise the rewritten record. */
    method UpdateStatus(id: string, status: Status, notes: Option<string>, now: string) returns (r: Option<Order>)
      modifies this
      ensures IndexOfId(old(orders), id).None? ==> r.None? && orders == old(orders)
      ensures IndexOfId(old(orders), id).Some? ==>
                var k := IndexOfId(old(orders), id).value;
                && r == Some(Restamped(old(orders)[k], status, notes, now))
                && orders == old(orders)[k := r.value]
      ensures |orders| == |old(orders)|
    {
      var found := IndexOfId(orders, id);
      if found.None? {
        return None;
      }
      var k := found.value;
      var updated := Restamped(orders[k], status, notes, now);
      orders := orders[k := updated];
      r := Some(updated);
    }

    /** `delete`: false, and nothing written, when no order has that id; otherwise every such order is dropped. */
    method Delete(id: string) returns (removed: bool)
      modifies this
      ensures removed <==> exists i :: 0 <= i < |old(orders)| && old(orders)[i].id == id
      ensures orders == WithoutId(old(orders), id)
      ensures !removed ==> orders == old(orders)
    {
      var filtered := WithoutId(orders, id);
      DeleteSpec(orders, id);
      if |filtered| == |orders| {
        DeleteAbsent(orders, id);
        return false;
      }
      orders := filtered;
      return true;
    }
  }
}

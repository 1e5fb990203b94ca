/**
 * The order table (orders.service.ts). An order has a generated id, an
 * owner, a total and a status taken as given, a creation date, and one item
 * row per item of the request. The pure functions are the queries and the
 * meaning of each write; the class holds the table that the writes change.
 */
module Orders {
  import opened Wrappers
  import opened Http
  import Seqs

  /** An item of a create request; the validation pipe requires every field, `image` included. */
  datatype OrderItemInput = OrderItemInput(title: string, price: int, quantity: int, image: string)

  /** The body of `POST /orders`; `total` and `status` are free values, not derived from the items. */
  datatype CreateOrderDto = CreateOrderDto(userId: string, total: int, status: string, items: seq<OrderItemInput>)

  /** A stored item row: a snapshot of the input item, linked to its order. */
  datatype OrderItem = OrderItem(orderId: string, title: string, price: int, quantity: int, image: Option<string>)

  /** A stored order with its items (`include: { items: true }`); `date` is the creation time. */
  datatype Order = Order(id: string, userId: string, total: int, status: string, date: int, items: seq<OrderItem>)

  /** The result of `getStats`. */
  datatype OrderStats = OrderStats(totalOrders: nat, totalRevenue: int)

  /** `items: { create: items }`: one row per input, in order, with the same fields. */
  function ItemsOf(orderId: string, inputs: seq<OrderItemInput>): (r: seq<OrderItem>)
    ensures |r| == |inputs|
    ensures forall i :: 0 <= i < |r| ==>
              && r[i].orderId == orderId
              && r[i].title == inputs[i].title
              && r[i].price == inputs[i].price
              && r[i].quantity == inputs[i].quantity
              && r[i].image == Some(inputs[i].image)
  {
    seq(|inputs|, i requires 0 <= i < |inputs| =>
      OrderItem(orderId, inputs[i].title, inputs[i].price, inputs[i].quantity, Some(inputs[i].image)))
  }

  /** The order `create` stores, given the generated id and the current time. */
  function NewOrder(dto: CreateOrderDto, id: string, now: int): (o: Order)
    ensures o.id == id && o.date == now
    ensures o.userId == dto.userId && o.total == dto.total && o.status == dto.status
    ensures o.items == ItemsOf(id, dto.items)
    ensures |o.items| == |dto.items|
    ensures forall i :: 0 <= i < |o.items| ==>
              o.items[i] == OrderItem(id, dto.items[i].title, dto.items[i].price, dto.items[i].quantity, Some(dto.items[i].image))
  {
    Order(id, dto.userId, dto.total, dto.status, now, ItemsOf(id, dto.items))
  }

  /** The table's primary key: no two orders share an id. */
  ghost predicate UniqueIds(orders: seq<Order>) {
    forall i, j :: 0 <= i < j < |orders| ==> orders[i].id != orders[j].id
  }

  /** `orderBy: { date: "desc" }`. */
  predicate NewerFirst(a: Order, b: Order) {
    a.date > b.date
  }

  lemma NewerFirstIsStrictWeak()
    ensures Seqs.StrictWeakOrder(NewerFirst)
  {
  }

  predicate OwnedBy(userId: string, o: Order) {
    o.userId == userId
  }

  /** `findByUser(userId)`. */
  function ByUser(orders: seq<Order>, userId: string): seq<Order> {
    Seqs.Sort(Seqs.Filter(o => OwnedBy(userId, o), orders), NewerFirst)
  }

  /** `findAll()`. */
  function AllNewestFirst(orders: seq<Order>): seq<Order> {
    Seqs.Sort(orders, NewerFirst)
  }

  /**
   * `findByUser(u)` returns exactly u's orders, each as often as it is
   * stored, newest first.
   */
  lemma ByUserIsExactlyTheUsersOrders(orders: seq<Order>, userId: string, o: Order)
    ensures var r := ByUser(orders, userId);
            && (o in r <==> o in orders && o.userId == userId)
            && multiset(r)[o] == (if o.userId == userId then multiset(orders)[o] else 0)
            && (forall i, j :: 0 <= i < j < |r| ==> r[i].date >= r[j].date)
  {
    var keep := (x: Order) => OwnedBy(userId, x);
    var mine := Seqs.Filter(keep, orders);
    Seqs.SortPermutes(mine, NewerFirst);
    Seqs.FilterCount(keep, orders, o);
    NewerFirstIsStrictWeak();
    Seqs.SortSorts(mine, NewerFirst);
  }

  /** `findAll()` is every order, newest first. */
  lemma AllNewestFirstIsEveryOrder(orders: seq<Order>)
    ensures multiset(AllNewestFirst(orders)) == multiset(orders)
    ensures var r := AllNewestFirst(orders);
            forall i, j :: 0 <= i < j < |r| ==> r[i].date >= r[j].date
  {
    Seqs.SortPermutes(orders, NewerFirst);
    NewerFirstIsStrictWeak();
    Seqs.SortSorts(orders, NewerFirst);
  }

  /** The position of the order with that id. */
  function IndexOf(orders: seq<Order>, id: string): (r: Option<nat>)
    ensures r.Some? ==> r.value < |orders| && orders[r.value].id == id
    ensures r.None? ==> forall i :: 0 <= i < |orders| ==> orders[i].id != id
  {
    if orders == [] then None
    else if orders[|orders| - 1].id == id then Some(|orders| - 1)
    else IndexOf(orders[..|orders| - 1], id)
  }

  /**
   * `findUnique({ where: { id, userId } })`: the order with that id when it
   * belongs to that user; nothing for an unknown id or another user's order.
   */
  function FindOwned(orders: seq<Order>, id: string, userId: string): (r: Option<Order>)
    ensures r.Some? ==> r.value in orders && r.value.id == id && r.value.userId == userId
    ensures r.None? <==> forall i :: 0 <= i < |orders| ==> !(orders[i].id == id && orders[i].userId == userId)
  {
    if orders == [] then None
    else if orders[|orders| - 1].id == id && orders[|orders| - 1].userId == userId then Some(orders[|orders| - 1])
    else FindOwned(orders[..|orders| - 1], id, userId)
  }

  /** Under unique ids, an order is found by its id and its owner, and by no other user. */
  lemma FindOwnedOfStoredOrder(orders: seq<Order>, k: nat, userId: string)
    requires UniqueIds(orders) && k < |orders|
    ensures FindOwned(orders, orders[k].id, userId) == if orders[k].userId == userId then Some(orders[k]) else None
  {
    var r := FindOwned(orders, orders[k].id, userId);
    if r.Some? {
      var j :| 0 <= j < |orders| && orders[j] == r.value;
      assert j == k;
    }
  }

  /** The sum of the totals. */
  function SumTotals(orders: seq<Order>): int {
    if orders == [] then 0 else SumTotals(orders[..|orders| - 1]) + orders[|orders| - 1].total
  }

  /** `aggregate({ _sum: { total: true } })._sum.total`: null over an empty table. */
  function SumOfTotals(orders: seq<Order>): (r: Option<int>)
    ensures r.None? <==> orders == []
  {
    if orders == [] then None else Some(SumTotals(orders))
  }

  /** `getStats()`: `totalRevenue` is the sum, or 0 when the sum is null (or 0). */
  function Stats(orders: seq<Order>): (s: OrderStats)
    ensures s.totalOrders == |orders|
    ensures orders == [] ==> s.totalRevenue == 0
    ensures s.totalRevenue == SumTotals(orders)
  {
    var sum := SumOfTotals(orders);
    OrderStats(|orders|, if sum.Some? && sum.value != 0 then sum.value else 0)
  }

  lemma {:induction false} SumTotalsAppend(a: seq<Order>, b: seq<Order>)
    ensures SumTotals(a + b) == SumTotals(a) + SumTotals(b)
    decreases |b|
  {
    if b == [] {
      assert a + b == a;
    } else {
      var init := b[..|b| - 1];
      SumTotalsAppend(a, init);
      assert (a + b)[..|a + b| - 1] == a + init;
    }
  }

  /** `orders` without the row at position `k`. */
  function Without(orders: seq<Order>, k: nat): (r: seq<Order>)
    requires k < |orders|
    ensures |r| == |orders| - 1
    ensures forall i :: 0 <= i < |r| ==> r[i] == if i < k then orders[i] else orders[i + 1]
  {
    orders[..k] + orders[k + 1..]
  }

  /** Creating an order adds one to the count and its total to the revenue. */
  lemma StatsAfterCreate(orders: seq<Order>, o: Order)
    ensures Stats(orders + [o]).totalOrders == Stats(orders).totalOrders + 1
    ensures Stats(orders + [o]).totalRevenue == Stats(orders).totalRevenue + o.total
  {
    SumTotalsAppend(orders, [o]);
    assert SumTotals([o]) == SumTotals([]) + o.total;
  }

  /** Removing an order subtracts one from the count and its total from the revenue. */
  lemma StatsAfterRemove(orders: seq<Order>, k: nat)
    requires k < |orders|
    ensures Stats(Without(orders, k)).totalOrders == Stats(orders).totalOrders - 1
    ensures Stats(Without(orders, k)).totalRevenue == Stats(orders).totalRevenue - orders[k].total
  {
    assert orders == orders[..k] + ([orders[k]] + orders[k + 1..]);
    SumTotalsAppend(orders[..k], [orders[k]] + orders[k + 1..]);
    SumTotalsAppend([orders[k]], orders[k + 1..]);
    SumTotalsAppend(orders[..k], orders[k + 1..]);
    assert SumTotals([orders[k]]) == SumTotals([]) + orders[k].total;
  }

  /** Removing a row keeps the ids unique. */
  lemma WithoutKeepsUniqueIds(orders: seq<Order>, k: nat)
    requires UniqueIds(orders) && k < |orders|
    ensures UniqueIds(Without(orders, k))
  {
    var r := Without(orders, k);
    forall i, j | 0 <= i < j < |r| ensures r[i].id != r[j].id {
      var i' := if i < k then i else i + 1;
      var j' := if j < k then j else j + 1;
      assert r[i] == orders[i'] && r[j] == orders[j'] && i' < j';
    }
  }

  /** A status update changes the status of that order and nothing else. */
  lemma StatusUpdateChangesOnlyStatus(orders: seq<Order>, k: nat, status: string, userId: string)
    requires UniqueIds(orders) && k < |orders|
    ensures var updated := orders[k := orders[k].(status := status)];
            && UniqueIds(updated)
            && Stats(updated) == Stats(orders)
            && FindOwned(updated, orders[k].id, userId)
               == if orders[k].userId == userId then Some(orders[k].(status := status)) else None
  {
    var updated := orders[k := orders[k].(status := status)];
    assert updated == orders[..k] + [updated[k]] + orders[k + 1..];
    assert orders == orders[..k] + [orders[k]] + orders[k + 1..];
    SumTotalsAppend(orders[..k] + [updated[k]], orders[k + 1..]);
    SumTotalsAppend(orders[..k] + [orders[k]], orders[k + 1..]);
    SumTotalsAppend(orders[..k], [updated[k]]);
    SumTotalsAppend(orders[..k], [orders[k]]);
    assert SumTotals([updated[k]]) == SumTotals([]) + updated[k].total;
    assert SumTotals([orders[k]]) == SumTotals([]) + orders[k].total;
    FindOwnedOfStoredOrder(updated, k, userId);
  }

  /** The order table. */
  class OrderStore {
    var orders: seq<Order>

    ghost predicate Valid()
      reads this
    {
      UniqueIds(orders)
    }

    constructor ()
      ensures Valid() && orders == []
    {
      orders := [];
    }

    /**
     * `create(dto)` with the generated `id` and the current time `now`.
     * A duplicate id violates the primary key and throws.
     */
    method Create(dto: CreateOrderDto, id: string, now: int) returns (r: Outcome<Order>)
      requires Valid()
      modifies this
      ensures Valid()
      ensures r.Returned? <==> forall i :: 0 <= i < |old(orders)| ==> old(orders)[i].id != id
      ensures r.Returned? ==> r.value == NewOrder(dto, id, now) && orders == old(orders) + [r.value]
      ensures r.Threw? ==> r.failure == OtherError && orders == old(orders)
    {
      if IndexOf(orders, id).Some? {
        r := Threw(OtherError);
      } else {
        var o := NewOrder(dto, id, now);
        orders := orders + [o];
        r := Returned(o);
      }
    }

    /** `findByUser(userId)`. */
    function FindByUser(userId: string): seq<Order>
      reads this
    {
      ByUser(orders, userId)
    }

    /** `findOne(id, userId)`. */
    function FindOne(id: string, userId: string): Option<Order>
      reads this
    {
      FindOwned(orders, id, userId)
    }

    /** `findAll()`. */
    function FindAll(): seq<Order>
      reads this
    {
      AllNewestFirst(orders)
    }

    /** `getStats()`. */
    function GetStats(): OrderStats
      reads this
    {
      Stats(orders)
    }

    /** `updateStatus(id, status)`: any string, any owner; throws for an unknown id. */
    method UpdateStatus(id: string, status: string) returns (r: Outcome<Order>)
      requires Valid()
      modifies this
      ensures Valid()
      ensures r.Returned? <==> exists i :: 0 <= i < |old(orders)| && old(orders)[i].id == id
      ensures r.Returned? ==> exists k :: 0 <= k < |old(orders)| && old(orders)[k].id == id
                                && r.value == old(orders)[k].(status := status)
                                && orders == old(orders)[k := r.value]
      ensures r.Threw? ==> r.failure == OtherError && orders == old(orders)
    {
      match IndexOf(orders, id)
      case None =>
        r := Threw(OtherError);
      case Some(k) =>
        StatusUpdateChangesOnlyStatus(orders, k, status, "");
        r := Returned(orders[k].(status := status));
        orders := orders[k := r.value];
    }

    /**
     * `remove(id, userId)`: deletes the order only when that user owns it;
     * otherwise throws and deletes nothing.
     */
    method Remove(id: string, userId: string) returns (r: Outcome<Order>)
      requires Valid()
      modifies this
      ensures Valid()
      ensures r.Returned? <==> exists i :: 0 <= i < |old(orders)| && old(orders)[i].id == id
                                                               && old(orders)[i].userId == userId
      ensures r.Returned? ==> exists k :: 0 <= k < |old(orders)| && r.value == old(orders)[k]
                                && r.value.id == id && r.value.userId == userId
                                && orders == Without(old(orders), k)
      ensures r.Threw? ==> r.failure == OtherError && orders == old(orders)
    {
      match IndexOf(orders, id)
      case None =>
        r := Threw(OtherError);
      case Some(k) =>
        if orders[k].userId == userId {
          WithoutKeepsUniqueIds(orders, k);
          r := Returned(orders[k]);
          orders := Without(orders, k);
        } else {
          forall i | 0 <= i < |orders| && orders[i].id == id ensures orders[i].userId != userId {
            assert i == k;
          }
          r := Threw(OtherError);
        }
    }
  }
}

/**
 * The order service: pricing and recording new orders, listing and reading them,
 * the unguarded status update and the guarded cancel, over an abstract store
 * that holds the order collection and each user's list of placed order ids.
 */
module Orders {
  import opened Pricing
  import Decimal

  /** Store-assigned order identifier (the document's `_id`). */
  type OrderId = nat
  type UserId = string
  type RestaurantId = string

  datatype Status = Pending | Confirmed | Preparing | OutForDelivery | Delivered | Cancelled

  /** A submitted line item: `{ menuItem, quantity, price }`. */
  datatype OrderItem = OrderItem(menuItem: string, quantity: int, price: real)

  datatype Order = Order(
    id: OrderId,
    orderNumber: string,
    user: UserId,
    restaurant: RestaurantId,
    items: seq<OrderItem>,
    totalPrice: real,
    deliveryFee: real,
    tax: real,
    deliveryAddress: string,
    paymentMethod: string,
    status: Status,
    createdAt: nat,
    updatedAt: nat)

  /** The two failures the handlers report with their own status codes. */
  datatype Error = NotFound | NotCancellable

  function HttpStatus(e: Error): nat {
    match e
    case NotFound => 404
    case NotCancellable => 400
  }

  datatype Reply = Found(order: Order) | Failed(error: Error)

  function Lines(items: seq<OrderItem>): seq<Line> {
    seq(|items|, i requires 0 <= i < |items| => Line(items[i].price, items[i].quantity))
  }

  /** `ORD-` followed by the creation timestamp in decimal. */
  function OrderNumber(now: nat): string {
    "ORD-" + Decimal.Render(now)
  }

  /** The order number carries the prefix and the timestamp, which can be read back from it;
      two order numbers are equal exactly when their timestamps are. */
  lemma {:induction false} OrderNumberShape(now: nat, other: nat)
    ensures |OrderNumber(now)| > 4 && OrderNumber(now)[..4] == "ORD-"
    ensures Decimal.AllDigits(OrderNumber(now)[4..])
    ensures Decimal.Value(OrderNumber(now)[4..]) == now
    ensures OrderNumber(now) == OrderNumber(other) <==> now == other
  {
    assert OrderNumber(now)[4..] == Decimal.Render(now);
    Decimal.ValueOfRender(now);
    if OrderNumber(now) == OrderNumber(other) {
      assert OrderNumber(other)[4..] == Decimal.Render(other);
      Decimal.RenderInjective(now, other);
    }
  }

  /** The stored prices agree with the items: tax is 10% of the subtotal, the fee is 5
      and the total is subtotal + tax + fee. */
  predicate PricedCorrectly(o: Order) {
    var subtotal := Subtotal(Lines(o.items));
    o.tax == Tax(subtotal) && o.deliveryFee == DeliveryFee && o.totalPrice == subtotal + o.tax + o.deliveryFee
  }

  /** The record createOrder builds for the given request, with its computed subtotal. */
  function NewOrder(id: OrderId, user: UserId, restaurant: RestaurantId, items: seq<OrderItem>,
                    deliveryAddress: string, paymentMethod: string, subtotal: real, now: nat): Order
  {
    var tax := Tax(subtotal);
    Order(id, OrderNumber(now), user, restaurant, items, subtotal + tax + DeliveryFee, DeliveryFee, tax,
          deliveryAddress, paymentMethod, Pending, now, now)
  }

  /** A new order is pending, correctly priced and, for non-negative prices and quantities,
      costs at least the delivery fee; subtracting tax and fee from its total gives the subtotal. */
  lemma {:induction false} NewOrderPriced(id: OrderId, user: UserId, restaurant: RestaurantId, items: seq<OrderItem>,
                       deliveryAddress: string, paymentMethod: string, now: nat)
    ensures var o := NewOrder(id, user, restaurant, items, deliveryAddress, paymentMethod, Subtotal(Lines(items)), now);
            && PricedCorrectly(o)
            && o.status == Pending
            && o.totalPrice - o.tax - o.deliveryFee == Subtotal(Lines(items))
            && (NonNegative(Lines(items)) ==> o.totalPrice >= DeliveryFee)
  {
    if NonNegative(Lines(items)) {
      SubtotalNonNegative(Lines(items));
    }
  }

  /** Whether cancelOrder admits the current status. */
  predicate Cancellable(s: Status) {
    s == Pending || s == Confirmed
  }

  /** The cancel transition on one order: only `pending` and `confirmed` orders may be cancelled. */
  function CancelTransition(o: Order): (r: Reply) {
    if Cancellable(o.status) then Found(o.(status := Cancelled)) else Failed(NotCancellable)
  }

  /** A successful cancel leaves the order cancelled and changes nothing else; cancelling the
      result again always fails with 400, so cancel is never applied twice. */
  lemma {:induction false} CancelIsFinal(o: Order)
    ensures CancelTransition(o).Found? <==> o.status in {Pending, Confirmed}
    ensures CancelTransition(o).Found? ==>
              var c := CancelTransition(o).order;
              c.status == Cancelled && c.(status := o.status) == o &&
              CancelTransition(c) == Failed(NotCancellable) && HttpStatus(NotCancellable) == 400
  {
  }

  /** The status-update transition: whatever the current status, the requested one is
      stored and `updatedAt` is refreshed. */
  function UpdateTransition(o: Order, status: Status, now: nat): Order {
    o.(status := status, updatedAt := now)
  }

  /** The status update has no guard: every status is reachable from every status, and the
      update can even bring a cancelled order back, unlike cancel. */
  lemma {:induction false} UpdateIsUnguarded(o: Order, status: Status, now: nat)
    ensures UpdateTransition(o, status, now).status == status
    ensures UpdateTransition(o, status, now).(status := o.status, updatedAt := o.updatedAt) == o
    ensures PricedCorrectly(o) ==> PricedCorrectly(UpdateTransition(o, status, now))
    ensures o.status == Cancelled && status == Pending ==> Cancellable(UpdateTransition(o, status, now).status)
  {
  }

  /** Every stored order is filed under its own id. */
  predicate KeysMatch(orders: map<OrderId, Order>) {
    forall id :: id in orders ==> orders[id].id == id
  }

  /**
   * The orders of one user with an id in [lo, hi), in id (creation) order: the query
   * `Order.find({ user })` in the store's natural order.
   */
  function OrdersOf(orders: map<OrderId, Order>, user: UserId, lo: nat, hi: nat): (r: seq<Order>)
    requires KeysMatch(orders)
    ensures forall o :: o in r ==> o.user == user && lo <= o.id < hi && o.id in orders && orders[o.id] == o
    ensures forall id :: lo <= id < hi && id in orders && orders[id].user == user ==> orders[id] in r
    ensures forall j, k :: 0 <= j < k < |r| ==> r[j].id < r[k].id
    decreases hi - lo
  {
    if lo >= hi then []
    else
      var rest := OrdersOf(orders, user, lo + 1, hi);
      if lo in orders && orders[lo].user == user then [orders[lo]] + rest else rest
  }

  /** Adding the order with the next id to the store appends it to its user's listing and
      leaves every other user's listing unchanged. */
  lemma {:induction false} OrdersOfExtend(orders: map<OrderId, Order>, user: UserId, o: Order, lo: nat, hi: nat)
    requires KeysMatch(orders) && o.id == hi && hi !in orders && lo <= hi
    ensures KeysMatch(orders[hi := o])
    ensures OrdersOf(orders[hi := o], user, lo, hi + 1) ==
            OrdersOf(orders, user, lo, hi) + (if o.user == user then [o] else [])
    decreases hi - lo
  {
    var orders' := orders[hi := o];
    if lo < hi {
      OrdersOfExtend(orders, user, o, lo + 1, hi);
      assert lo in orders' <==> lo in orders;
    }
  }

  /**
   * The invariant of the store: ids are below the next id to assign and each order is filed
   * under its own id; every order is correctly priced; each user's history lists distinct ids
   * of stored orders placed by that user.
   */
  predicate LedgerInvariant(orders: map<OrderId, Order>, userOrders: map<UserId, seq<OrderId>>, nextId: nat) {
    && KeysMatch(orders)
    && (forall id :: id in orders ==> id < nextId && PricedCorrectly(orders[id]))
    && (forall u, k :: u in userOrders && 0 <= k < |userOrders[u]| ==>
          userOrders[u][k] in orders && orders[userOrders[u][k]].user == u)
    && (forall u, j, k :: u in userOrders && 0 <= j < k < |userOrders[u]| ==>
          userOrders[u][j] != userOrders[u][k])
  }

  /** Storing a correctly priced order under the next id, and appending that id to its
      user's history, keeps the store invariant. */
  lemma {:induction false} CreateKeepsInvariant(orders: map<OrderId, Order>, userOrders: map<UserId, seq<OrderId>>, nextId: nat, o: Order)
    requires LedgerInvariant(orders, userOrders, nextId)
    requires o.id == nextId && PricedCorrectly(o)
    ensures LedgerInvariant(orders[nextId := o], userOrders, nextId + 1)
    ensures o.user in userOrders ==>
              LedgerInvariant(orders[nextId := o], userOrders[o.user := userOrders[o.user] + [nextId]], nextId + 1)
  {
    var orders' := orders[nextId := o];
    assert nextId !in orders;
    if o.user in userOrders {
      var h := userOrders[o.user] + [nextId];
      var userOrders' := userOrders[o.user := h];
      forall u, k | u in userOrders' && 0 <= k < |userOrders'[u]|
        ensures userOrders'[u][k] in orders' && orders'[userOrders'[u][k]].user == u
      {
        if u == o.user && k == |h| - 1 {
        } else {
          assert userOrders'[u][k] == userOrders[u][k];
        }
      }
      forall u, j, k | u in userOrders' && 0 <= j < k < |userOrders'[u]|
        ensures userOrders'[u][j] != userOrders'[u][k]
      {
        if u == o.user && k == |h| - 1 {
          assert userOrders[u][j] in orders;
        }
      }
    }
  }

  /** The order and user collections, as the order service sees them. */
  class OrderStore {
    var orders: map<OrderId, Order>
    var userOrders: map<UserId, seq<OrderId>>
    var nextId: nat

    ghost predicate Valid()
      reads this
    {
      LedgerInvariant(orders, userOrders, nextId)
    }

    /** A store with the given registered users, each with an empty order history, and no orders. */
    constructor (users: set<UserId>)
      ensures Valid()
      ensures orders == map[] && userOrders == map u | u in users :: []
    {
      orders := map[];
      userOrders := map u | u in users :: [];
      nextId := 0;
    }

    /**
     * createOrder: sums price * quantity over the submitted items, adds 10% tax and the fixed
     * fee of 5, stores the new pending order under a fresh id and appends that id to the
     * caller's history (a caller without a user record gets no history entry). The
     * restaurant, the prices and the quantities are not checked.
     */
    method CreateOrder(user: UserId, restaurant: RestaurantId, items: seq<OrderItem>,
                       deliveryAddress: string, paymentMethod: string, now: nat) returns (o: Order)
      requires Valid()
      modifies this
      ensures Valid()
      ensures o == NewOrder(old(nextId), user, restaurant, items, deliveryAddress, paymentMethod, Subtotal(Lines(items)), now)
      ensures o.id !in old(orders) && orders == old(orders)[o.id := o]
      ensures userOrders == if user in old(userOrders)
                            then old(userOrders)[user := old(userOrders)[user] + [o.id]]
                            else old(userOrders)
      ensures nextId == old(nextId) + 1
      ensures forall u :: UserOrders(u) == old(UserOrders(u)) + (if u == user then [o] else [])
    {
      var subtotal := ComputeSubtotal(Lines(items));
      var id := nextId;
      o := NewOrder(id, user, restaurant, items, deliveryAddress, paymentMethod, subtotal, now);
      NewOrderPriced(id, user, restaurant, items, deliveryAddress, paymentMethod, now);
      CreateKeepsInvariant(orders, userOrders, nextId, o);
      forall u ensures OrdersOf(orders[id := o], u, 0, id + 1) == OrdersOf(orders, u, 0, id) + (if u == user then [o] else []) {
        OrdersOfExtend(orders, u, o, 0, id);
      }
      orders := orders[id := o];
      nextId := id + 1;
      if user in userOrders {
        userOrders := userOrders[user := userOrders[user] + [id]];
      }
    }

    /** getUserOrders: every stored order placed by the user, in creation order. */
    function UserOrders(user: UserId): (r: seq<Order>)
      reads this
      requires Valid()
      ensures forall o :: o in r ==> o.user == user && o.id in orders && orders[o.id] == o
      ensures forall id :: id in orders && orders[id].user == user ==> orders[id] in r
      ensures forall j, k :: 0 <= j < k < |r| ==> r[j].id < r[k].id
    {
      OrdersOf(orders, user, 0, nextId)
    }

    /** getOrder: the stored order, or 404 when the id is unknown. */
    function GetOrder(id: OrderId): (r: Reply)
      reads this
      requires Valid()
      ensures r.Found? <==> id in orders
      ensures r.Found? ==> r.order == orders[id] && r.order.id == id && PricedCorrectly(r.order)
      ensures r.Failed? ==> HttpStatus(r.error) == 404
    {
      if id in orders then Found(orders[id]) else Failed(NotFound)
    }

    /**
     * updateOrderStatus: stores the requested status and refreshes `updatedAt`, whatever the
     * current status; 404 and no change when the id is unknown.
     */
    method UpdateOrderStatus(id: OrderId, status: Status, now: nat) returns (r: Reply)
      requires Valid()
      modifies this
      ensures Valid()
      ensures id !in old(orders) ==> r == Failed(NotFound) && orders == old(orders)
      ensures id in old(orders) ==>
                r == Found(UpdateTransition(old(orders)[id], status, now)) && orders == old(orders)[id := r.order]
      ensures userOrders == old(userOrders) && nextId == old(nextId)
    {
      if id !in orders {
        return Failed(NotFound);
      }
      var o := UpdateTransition(orders[id], status, now);
      orders := orders[id := o];
      r := Found(o);
    }

    /**
     * cancelOrder: 404 when the id is unknown, 400 with nothing changed when the status is
     * neither pending nor confirmed, otherwise the order becomes cancelled.
     */
    method CancelOrder(id: OrderId) returns (r: Reply)
      requires Valid()
      modifies this
      ensures Valid()
      ensures id !in old(orders) ==> r == Failed(NotFound) && orders == old(orders)
      ensures id in old(orders) ==> r == CancelTransition(old(orders)[id])
      ensures id in old(orders) && r.Failed? ==> orders == old(orders)
      ensures r.Found? ==> orders == old(orders)[id := r.order]
      ensures userOrders == old(userOrders) && nextId == old(nextId)
    {
      if id !in orders {
        return Failed(NotFound);
      }
      r := CancelTransition(orders[id]);
      if r.Found? {
        orders := orders[id := r.order];
      }
    }
  }

  /** Reading an order twice gives the same reply, since getOrder is a read-only function of the
      store; the read finds the order exactly when its id is stored. */
  method ReadTwice(store: OrderStore, id: OrderId) returns (first: Reply, second: Reply)
    requires store.Valid()
    ensures first == second
    ensures first.Found? <==> id in store.orders
  {
    first := store.GetOrder(id);
    second := store.GetOrder(id);
  }

  /** A second cancel of the same order always fails: with 400 when the first succeeded or
      was refused, with 404 when the order does not exist. */
  method CancelTwice(store: OrderStore, id: OrderId) returns (first: Reply, second: Reply)
    requires store.Valid()
    modifies store
    ensures store.Valid()
    ensures second.Failed?
    ensures id in old(store.orders) ==> second == Failed(NotCancellable)
    ensures first.Found? ==> first.order.status == Cancelled && id in store.orders && store.orders[id] == first.order
  {
    first := store.CancelOrder(id);
    second := store.CancelOrder(id);
  }

  /** The worked scenario: one item at 9.99 x 3 gives subtotal 29.97, tax 2.997 and total
      37.967; the new order is pending and is listed for its user. */
  method PlaceOneOrder(store: OrderStore, user: UserId) returns (o: Order)
    requires store.Valid()
    modifies store
    ensures store.Valid()
    ensures o.status == Pending && o.totalPrice == 37.967 && o.tax == 2.997 && o.deliveryFee == 5.0
    ensures o in store.UserOrders(user)
  {
    o := store.CreateOrder(user, "R", [OrderItem("m", 3, 9.99)], "123 Main St", "card", 0);
    assert Lines([OrderItem("m", 3, 9.99)]) == [Line(9.99, 3)];
    assert [Line(9.99, 3)][..0] == [];
    assert |store.UserOrders(user)| > 0;
  }
}

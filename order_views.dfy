/** The order endpoints (backend/orders/views.py): placing an order for a
    cart, listing the caller's orders and reading one order back. */
module OrderViews {
  import opened Common
  import opened Tables
  import opened CartModels
  import opened OrderModels
  import opened DeliveryModels
  import opened UserModels
  import opened Db

  /** An order as `OrderSerializer` shows it: the row and its nested
      delivery choice, if any. */
  datatype OrderView = OrderView(order: Order, choice: Option<DeliveryChoice>)

  /** `OrderSerializer(o)`: the choice is the one whose `order` is `o`. */
  function ViewOrder(choices: seq<DeliveryChoice>, o: Order): (v: OrderView)
    ensures v.order == o
    ensures v.choice.None? <==> o.id !in KeySet(choices, ChoiceOrder)
    ensures v.choice.Some? ==> v.choice.value in choices && v.choice.value.order == o.id
  {
    match Find(choices, ChoiceOrder, o.id)
    case None => OrderView(o, None)
    case Some(j) => OrderView(o, Some(choices[j]))
  }

  /** The store after `Order.objects.create(user=u, cart=c,
      total_price=c.subtotal)`. */
  function PlaceOrder(s: Store, u: nat, c: nat): (r: Store)
    ensures r.(orders := s.orders, nextOrderId := s.nextOrderId) == s
    ensures r.nextOrderId == s.nextOrderId + 1
    ensures forall o :: o in r.orders <==> o in s.orders || o == Order(s.nextOrderId, u, c, Subtotal(s.items, c))
  {
    s.(orders := s.orders + [Order(s.nextOrderId, u, c, Subtotal(s.items, c))], nextOrderId := s.nextOrderId + 1)
  }

  /** Appending an order with the next id for an existing user and an
      existing cart that has no order keeps the order table consistent. */
  lemma AppendOrderOk(userIds: set<nat>, cartIds: set<nat>, orders: seq<Order>, next: nat, o: Order)
    requires OrdersOk(userIds, cartIds, orders, next)
    requires o.id == next && o.user in userIds && o.cart in cartIds && o.cart !in KeySet(orders, OrderCart)
    ensures OrdersOk(userIds, cartIds, orders + [o], next + 1)
    ensures KeySet(orders + [o], OrderId) == KeySet(orders, OrderId) + {o.id}
  {
    DistinctAppend(orders, o, OrderId);
    DistinctAppend(orders, o, OrderCart);
  }

  /** Placing an order keeps the store consistent, so a cart never gets a
      second order, and the cart is then taken. */
  lemma PlaceOrderOk(s: Store, u: nat, c: nat)
    requires StoreOk(s) && u in KeySet(s.users, UserId) && c in KeySet(s.carts, CartId)
    requires c !in KeySet(s.orders, OrderCart)
    ensures StoreOk(PlaceOrder(s, u, c))
    ensures c in KeySet(PlaceOrder(s, u, c).orders, OrderCart)
  {
    var o := Order(s.nextOrderId, u, c, Subtotal(s.items, c));
    AppendOrderOk(KeySet(s.users, UserId), KeySet(s.carts, CartId), s.orders, s.nextOrderId, o);
    assert o in PlaceOrder(s, u, c).orders;
  }

  /** The placed order appears at the end of its owner's list, with the
      cart's subtotal as its total; every other user's list is unchanged. */
  lemma PlaceOrderListed(s: Store, u: nat, c: nat, v: nat)
    ensures OrdersOf(PlaceOrder(s, u, c).orders, v)
      == OrdersOf(s.orders, v) + (if v == u then [Order(s.nextOrderId, u, c, Subtotal(s.items, c))] else [])
  {
    OrdersOfAppend(s.orders, Order(s.nextOrderId, u, c, Subtotal(s.items, c)), v);
  }

  /** `CreateOrderView.post` for the authenticated user `u`. `cartId` is
      Absent for a missing or falsy `cart_id`, Malformed for a value the id
      lookup cannot convert, Given otherwise. The cart need not be the
      caller's: the view does not check its owner. */
  method CreateOrder(db: Database, u: nat, cartId: Input<int>) returns (status: int, view: Option<OrderView>)
    requires db.Valid() && u in KeySet(db.state.users, UserId)
    modifies db
    ensures db.Valid()
    ensures (cartId.Absent? || cartId.Malformed?) ==> db.state == old(db.state) && view.None?
    ensures cartId.Absent? ==> status == BAD_REQUEST
    ensures cartId.Malformed? ==> status == SERVER_ERROR
    ensures cartId.Given? && (cartId.value < 0 || cartId.value as nat !in KeySet(old(db.state).carts, CartId)) ==>
      status == NOT_FOUND && view.None? && db.state == old(db.state)
    ensures cartId.Given? && cartId.value >= 0 && cartId.value as nat in KeySet(old(db.state).orders, OrderCart) ==>
      status == BAD_REQUEST && view.None? && db.state == old(db.state)
    ensures cartId.Given? && cartId.value >= 0 && cartId.value as nat in KeySet(old(db.state).carts, CartId)
              && cartId.value as nat !in KeySet(old(db.state).orders, OrderCart) ==>
      && status == CREATED
      && db.state == PlaceOrder(old(db.state), u, cartId.value as nat)
      && view == Some(OrderView(Order(old(db.state).nextOrderId, u, cartId.value as nat,
                                      Subtotal(old(db.state).items, cartId.value as nat)), None))
  {
    if cartId.Absent? {
      return BAD_REQUEST, None;
    }
    if cartId.Malformed? {
      return SERVER_ERROR, None;
    }
    var s := db.state;
    if cartId.value < 0 || Find(s.carts, CartId, cartId.value as nat).None? {
      return NOT_FOUND, None;
    }
    var c := cartId.value as nat;
    if Find(s.orders, OrderCart, c).Some? {
      return BAD_REQUEST, None;
    }
    PlaceOrderOk(s, u, c);
    db.state := PlaceOrder(s, u, c);
    var o := Order(s.nextOrderId, u, c, Subtotal(s.items, c));
    return CREATED, Some(OrderView(o, None));
  }

  /** `OrderDetailView`: any order by primary key, whoever owns it. */
  function OrderDetail(s: Store, id: nat): (r: Option<OrderView>)
    ensures r.None? <==> id !in KeySet(s.orders, OrderId)
    ensures r.Some? ==> r.value.order in s.orders && r.value.order.id == id
  {
    match Find(s.orders, OrderId, id)
    case None => None
    case Some(i) => Some(ViewOrder(s.choices, s.orders[i]))
  }
}

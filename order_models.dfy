/** The order table (backend/orders/models.py): one order per cart, owned by
    a user, with a 2-decimal total in cents. */
module OrderModels {
  import opened Common
  import opened Tables

  datatype Order = Order(id: nat, user: nat, cart: nat, totalPrice: int)

  /** `total_price` default 0.00. */
  const DEFAULT_TOTAL: int := 0

  function OrderId(o: Order): nat { o.id }
  /** The one-to-one `cart` column: unique across orders. */
  function OrderCart(o: Order): nat { o.cart }
  function OrderUser(o: Order): nat { o.user }

  /** The orders whose `user` is `u`, in table order. */
  function OrdersOf(orders: seq<Order>, u: nat): (r: seq<Order>)
    ensures |r| <= |orders|
    ensures forall o :: o in r <==> o in orders && o.user == u
  {
    if |orders| == 0 then []
    else (if orders[0].user == u then [orders[0]] else []) + OrdersOf(orders[1..], u)
  }

  /** A new order shows up at the end of its owner's list and nowhere else. */
  lemma {:induction false} OrdersOfAppend(orders: seq<Order>, o: Order, u: nat)
    ensures OrdersOf(orders + [o], u) == OrdersOf(orders, u) + (if o.user == u then [o] else [])
  {
    if |orders| == 0 {
      assert orders + [o] == [o];
    } else {
      assert (orders + [o])[1..] == orders[1..] + [o];
      OrdersOfAppend(orders[1..], o, u);
    }
  }

  /** The ids of the orders that reference cart `c` or user `u`: the ones a
      deletion of that cart or user removes. */
  function DoomedOrders(orders: seq<Order>, c: Option<nat>, u: Option<nat>): (r: set<nat>)
    ensures forall o :: o in orders && (Some(o.cart) == c || Some(o.user) == u) ==> o.id in r
    ensures forall id :: id in r ==> exists o :: o in orders && o.id == id && (Some(o.cart) == c || Some(o.user) == u)
  {
    set o | o in orders && (Some(o.cart) == c || Some(o.user) == u) :: o.id
  }

  /** Cascade of deleting cart `c` or user `u` (both `on_delete=CASCADE`):
      the orders that reference neither survive, in order. */
  function RemainingOrders(orders: seq<Order>, c: Option<nat>, u: Option<nat>): (r: seq<Order>)
    ensures |r| <= |orders|
    ensures forall o :: o in r <==> o in orders && Some(o.cart) != c && Some(o.user) != u
    ensures Distinct(orders, OrderId) ==> Distinct(r, OrderId)
    ensures Distinct(orders, OrderCart) ==> Distinct(r, OrderCart)
  {
    var keep := (o: Order) => Some(o.cart) != c && Some(o.user) != u;
    assert Distinct(orders, OrderId) ==> Distinct(Filter(orders, keep), OrderId) by {
      if Distinct(orders, OrderId) { FilterDistinct(orders, keep, OrderId); }
    }
    assert Distinct(orders, OrderCart) ==> Distinct(Filter(orders, keep), OrderCart) by {
      if Distinct(orders, OrderCart) { FilterDistinct(orders, keep, OrderCart); }
    }
    Filter(orders, keep)
  }
}

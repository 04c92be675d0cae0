/** The relational store behind the Django backend: the user, cart,
    cart-item, order and delivery-choice tables, each a sequence of rows in
    primary-key order, with the next primary key each table hands out, and
    the cascades the schema declares. */
module Db {
  import opened Common
  import opened Tables
  import opened CartModels
  import opened OrderModels
  import opened DeliveryModels
  import opened UserModels

  /** Primary keys are unique and below the next key; the `email` column is
      unique (backend/users/models.py:40). */
  ghost predicate UsersOk(users: seq<User>, next: nat)
  {
    Distinct(users, UserId) && Below(users, UserId, next) && Distinct(users, UserEmail)
  }

  /** A cart's `user`, when set, is an existing user. */
  ghost predicate CartsOk(userIds: set<nat>, carts: seq<Cart>, next: nat)
  {
    Distinct(carts, CartId) && Below(carts, CartId, next)
    && forall c :: c in carts && c.user.Some? ==> c.user.value in userIds
  }

  /** Every item belongs to an existing cart and has a quantity of at least
      1, and no cart holds two items for one (product, variant). The table
      only indexes that triple (backend/cart/models.py:26-27): it is the add
      path that keeps it unique. */
  ghost predicate ItemsOk(cartIds: set<nat>, items: seq<CartItem>, next: nat)
  {
    Distinct(items, ItemId) && Below(items, ItemId, next) && Distinct(items, ItemKey)
    && forall it :: it in items ==> it.cart in cartIds && it.quantity >= 1
  }

  /** Every order references an existing user and an existing cart, and no
      cart has two orders (the one-to-one `cart` column). */
  ghost predicate OrdersOk(userIds: set<nat>, cartIds: set<nat>, orders: seq<Order>, next: nat)
  {
    Distinct(orders, OrderId) && Below(orders, OrderId, next) && Distinct(orders, OrderCart)
    && forall o :: o in orders ==> o.cart in cartIds && o.user in userIds
  }

  /** Every choice references an existing order, and no order has two
      choices (the one-to-one `order` column). */
  ghost predicate ChoicesOk(orderIds: set<nat>, choices: seq<DeliveryChoice>, next: nat)
  {
    Distinct(choices, ChoiceId) && Below(choices, ChoiceId, next) && Distinct(choices, ChoiceOrder)
    && forall d :: d in choices ==> d.order in orderIds
  }

  /** Removing the rows of cart `c` leaves the other cart ids. */
  lemma DeleteCartRowIds(carts: seq<Cart>, c: nat)
    ensures KeySet(DeleteCartRow(carts, c), CartId) == KeySet(carts, CartId) - {c}
  {
    var carts1 := DeleteCartRow(carts, c);
    forall k | k in KeySet(carts, CartId) && k != c ensures k in KeySet(carts1, CartId) {
      var x :| x in carts && x.id == k;
      assert x in carts1;
    }
  }

  /** Removing the row of user `u` leaves the other user ids. */
  lemma DeleteUserRowIds(users: seq<User>, u: nat)
    ensures KeySet(DeleteUserRow(users, u), UserId) == KeySet(users, UserId) - {u}
  {
    var users1 := DeleteUserRow(users, u);
    forall k | k in KeySet(users, UserId) && k != u ensures k in KeySet(users1, UserId) {
      var x :| x in users && x.id == k;
      assert x in users1;
    }
  }

  /** The orders left after a cascade leave the other order ids. */
  lemma RemainingOrderIds(orders: seq<Order>, c: Option<nat>, u: Option<nat>)
    requires Distinct(orders, OrderId)
    ensures KeySet(RemainingOrders(orders, c, u), OrderId) == KeySet(orders, OrderId) - DoomedOrders(orders, c, u)
  {
    var orders1 := RemainingOrders(orders, c, u);
    forall k | k in KeySet(orders, OrderId) && k !in DoomedOrders(orders, c, u)
      ensures k in KeySet(orders1, OrderId)
    {
      var o :| o in orders && o.id == k;
      assert o in orders1;
    }
    forall k | k in KeySet(orders1, OrderId) ensures k !in DoomedOrders(orders, c, u) {
      var o :| o in orders1 && o.id == k;
      SurvivorNotDoomed(orders, c, u, o);
    }
  }

  /** With distinct ids, no surviving order shares its id with a cascaded one. */
  lemma SurvivorNotDoomed(orders: seq<Order>, c: Option<nat>, u: Option<nat>, o: Order)
    requires Distinct(orders, OrderId)
    requires o in orders && Some(o.cart) != c && Some(o.user) != u
    ensures o.id !in DoomedOrders(orders, c, u)
  {
  }

  /** The state of the store. */
  datatype Store = Store(
    users: seq<User>,
    carts: seq<Cart>,
    items: seq<CartItem>,
    orders: seq<Order>,
    choices: seq<DeliveryChoice>,
    nextUserId: nat,
    nextCartId: nat,
    nextItemId: nat,
    nextOrderId: nat,
    nextChoiceId: nat)

  /** The empty store; primary keys start at 1. */
  const EMPTY: Store := Store([], [], [], [], [], 1, 1, 1, 1, 1)

  /** The five tables are consistent with each other and with their next keys. */
  ghost predicate StoreOk(t: Store)
  {
    && UsersOk(t.users, t.nextUserId)
    && CartsOk(KeySet(t.users, UserId), t.carts, t.nextCartId)
    && ItemsOk(KeySet(t.carts, CartId), t.items, t.nextItemId)
    && OrdersOk(KeySet(t.users, UserId), KeySet(t.carts, CartId), t.orders, t.nextOrderId)
    && ChoicesOk(KeySet(t.orders, OrderId), t.choices, t.nextChoiceId)
  }

  /** No two carts share (user, session key). Nothing in the schema enforces
      this and deleting a user can break it (two carts of one session become
      anonymous), so it is not part of `StoreOk`. */
  ghost predicate CartKeysUnique(t: Store)
  {
    Distinct(t.carts, CartKey)
  }

  lemma EmptyOk()
    ensures StoreOk(EMPTY) && CartKeysUnique(EMPTY)
  {
  }

  /** Replacing the item table by a consistent one keeps the store consistent. */
  lemma WithItemsOk(t: Store, items: seq<CartItem>, next: nat)
    requires StoreOk(t) && ItemsOk(KeySet(t.carts, CartId), items, next)
    ensures StoreOk(t.(items := items, nextItemId := next))
  {
  }

  /** Replacing the order and choice tables by consistent ones keeps the
      store consistent. */
  lemma WithOrdersOk(t: Store, orders: seq<Order>, nextOrder: nat, choices: seq<DeliveryChoice>, nextChoice: nat)
    requires StoreOk(t)
    requires OrdersOk(KeySet(t.users, UserId), KeySet(t.carts, CartId), orders, nextOrder)
    requires ChoicesOk(KeySet(orders, OrderId), choices, nextChoice)
    ensures StoreOk(t.(orders := orders, nextOrderId := nextOrder, choices := choices, nextChoiceId := nextChoice))
  {
  }

  /** Deleting cart `c` (backend/cart/models.py:18, backend/orders/models.py:14-18,
      backend/deliveries/models.py:16): its items and its order go with it,
      and so does that order's delivery choice; nothing else changes. */
  function DeleteCart(t: Store, c: nat): (r: Store)
    ensures StoreOk(t) ==> StoreOk(r)
    ensures c !in KeySet(r.carts, CartId)
    ensures forall x :: x in r.carts <==> x in t.carts && x.id != c
    ensures forall it :: it in r.items <==> it in t.items && it.cart != c
    ensures forall o :: o in r.orders <==> o in t.orders && o.cart != c
    ensures forall d :: d in r.choices ==> d in t.choices
    ensures forall o, d :: o in t.orders && o.cart == c && d in t.choices && d.order == o.id ==> d !in r.choices
    ensures r.users == t.users
  {
    var r := t.(carts := DeleteCartRow(t.carts, c), items := DeleteCartItems(t.items, c),
                orders := RemainingOrders(t.orders, Some(c), None),
                choices := RemainingChoices(t.choices, DoomedOrders(t.orders, Some(c), None)));
    assert StoreOk(t) ==> StoreOk(r) by {
      if StoreOk(t) { DeleteCartOk(t, c); }
    }
    r
  }

  /** Deleting user `u` (backend/cart/models.py:8, backend/orders/models.py:9-13):
      their carts stay with `user` set to null, their orders are deleted and
      so are those orders' delivery choices; the items are untouched. */
  function DeleteUser(t: Store, u: nat): (r: Store)
    ensures StoreOk(t) ==> StoreOk(r)
    ensures u !in KeySet(r.users, UserId)
    ensures forall x :: x in r.users <==> x in t.users && x.id != u
    ensures |r.carts| == |t.carts|
    ensures forall i :: 0 <= i < |r.carts| ==> r.carts[i].id == t.carts[i].id && r.carts[i].user != Some(u)
    ensures forall i :: 0 <= i < |r.carts| && t.carts[i].user != Some(u) ==> r.carts[i] == t.carts[i]
    ensures forall o :: o in r.orders <==> o in t.orders && o.user != u
    ensures forall d :: d in r.choices ==> d in t.choices
    ensures r.items == t.items
  {
    var r := t.(users := DeleteUserRow(t.users, u), carts := DetachUser(t.carts, u),
                orders := RemainingOrders(t.orders, None, Some(u)),
                choices := RemainingChoices(t.choices, DoomedOrders(t.orders, None, Some(u))));
    assert StoreOk(t) ==> StoreOk(r) by {
      if StoreOk(t) { DeleteUserOk(t, u); }
    }
    r
  }

  lemma DeleteCartOk(t: Store, c: nat)
    requires StoreOk(t)
    ensures StoreOk(t.(carts := DeleteCartRow(t.carts, c), items := DeleteCartItems(t.items, c),
                        orders := RemainingOrders(t.orders, Some(c), None),
                        choices := RemainingChoices(t.choices, DoomedOrders(t.orders, Some(c), None))))
  {
    DeleteCartRowIds(t.carts, c);
    RemainingOrderIds(t.orders, Some(c), None);
  }

  lemma DeleteUserOk(t: Store, u: nat)
    requires StoreOk(t)
    ensures StoreOk(t.(users := DeleteUserRow(t.users, u), carts := DetachUser(t.carts, u),
                        orders := RemainingOrders(t.orders, None, Some(u)),
                        choices := RemainingChoices(t.choices, DoomedOrders(t.orders, None, Some(u)))))
  {
    DeleteUserRowIds(t.users, u);
    SameKeys(t.carts, DetachUser(t.carts, u), CartId, CartId);
    RemainingOrderIds(t.orders, None, Some(u));
  }

  /** The store the views read and write. Each request replaces the whole
      state, as one transaction would. */
  class Database {
    var state: Store

    ghost predicate Valid()
      reads this
    {
      StoreOk(state)
    }

    constructor ()
      ensures Valid() && CartKeysUnique(state)
      ensures state == EMPTY
    {
      state := EMPTY;
      EmptyOk();
    }
  }
}

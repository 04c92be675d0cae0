/** The cart page (frontend/src/app/cart/cart.component.ts): the items and
    subtotal the cart endpoint returned, and a map of optimistic quantities
    that answers at once while an update is in flight. Prices are integer
    cents. Requests to the cart endpoint are recorded in the order they are
    sent; their replies arrive later as calls to `Refresh`. */
module CartComponent {
  import opened Common

  /** One cart line as the cart endpoint returns it. `weight` is in
      hundredths of a kilogram; only the delivery page reads it. */
  datatype CartItem = CartItem(id: int, unitPrice: int, quantity: int, weight: int)

  /** The body of `GET /api/cart/`; a missing key is None. */
  datatype CartResponse = CartResponse(items: Option<seq<CartItem>>, subtotal: Option<int>)

  /** A request the page sends to the cart service. */
  datatype Request = UpdateQty(itemId: int, quantity: int) | RemoveItem(itemId: int)

  /** `c?.items ?? []`. */
  function ItemsOf(c: CartResponse): (r: seq<CartItem>)
    ensures c.items.None? ==> r == []
    ensures c.items.Some? ==> r == c.items.value
  {
    if c.items.Some? then c.items.value else []
  }

  /** `Number(c?.subtotal ?? 0)`. */
  function SubtotalOf(c: CartResponse): (r: int)
    ensures c.subtotal.None? ==> r == 0
    ensures c.subtotal.Some? ==> r == c.subtotal.value
  {
    if c.subtotal.Some? then c.subtotal.value else 0
  }

  /** No two lines share an id, as the cart endpoint returns them. */
  predicate DistinctIds(items: seq<CartItem>)
  {
    forall i, j :: 0 <= i < j < |items| ==> items[i].id != items[j].id
  }

  /** The map a cleared `localQty` holds after `set(it.id, it.quantity)` for
      each item in turn. */
  function QtyMap(items: seq<CartItem>): map<int, int>
  {
    if |items| == 0 then map[]
    else QtyMap(items[..|items| - 1])[items[|items| - 1].id := items[|items| - 1].quantity]
  }

  /** Setting one more line's quantity extends the map built so far. */
  lemma QtyMapSnoc(items: seq<CartItem>, x: CartItem)
    ensures QtyMap(items + [x]) == QtyMap(items)[x.id := x.quantity]
  {
    assert (items + [x])[..|items|] == items;
  }

  /** The rebuilt map has a key for exactly the returned ids, and the last
      line with an id decides its quantity. */
  lemma {:induction false} QtyMapSpec(items: seq<CartItem>)
    ensures forall k :: k in QtyMap(items) <==> exists i :: 0 <= i < |items| && items[i].id == k
    ensures forall i :: 0 <= i < |items| && (forall j :: i < j < |items| ==> items[j].id != items[i].id) ==>
      QtyMap(items)[items[i].id] == items[i].quantity
  {
    if |items| > 0 {
      var init := items[..|items| - 1];
      QtyMapSpec(init);
      assert forall i :: 0 <= i < |init| ==> init[i] == items[i];
    }
  }

  /** With distinct ids, every returned line's server quantity is recorded. */
  lemma QtyMapRecordsEach(items: seq<CartItem>)
    requires DistinctIds(items)
    ensures forall i :: 0 <= i < |items| ==> items[i].id in QtyMap(items)
    ensures forall i :: 0 <= i < |items| ==> QtyMap(items)[items[i].id] == items[i].quantity
  {
    QtyMapSpec(items);
  }

  /** `localQty.get(it.id) ?? it.quantity`. */
  function Optimistic(local: map<int, int>, it: CartItem): int
  {
    if it.id in local then local[it.id] else it.quantity
  }

  /** The quantity `incr` stores and sends. */
  function Incremented(local: map<int, int>, it: CartItem): (q: int)
    ensures q > Optimistic(local, it)
  {
    Optimistic(local, it) + 1
  }

  /** The quantity `decr` stores and sends: one less, but never below 1. */
  function Decremented(local: map<int, int>, it: CartItem): (q: int)
    ensures q >= 1
    ensures Optimistic(local, it) >= 2 ==> q == Optimistic(local, it) - 1
    ensures Optimistic(local, it) <= 1 ==> q == 1
  {
    if Optimistic(local, it) - 1 > 1 then Optimistic(local, it) - 1 else 1
  }

  /** `Number(it.unit_price) * q`. */
  function LineTotal(local: map<int, int>, it: CartItem): int
  {
    it.unitPrice * Optimistic(local, it)
  }

  /** Right after a refresh, the page shows the server's quantities, so each
      line total is the unit price times the quantity the server returned. */
  lemma RefreshedLineTotals(items: seq<CartItem>)
    requires DistinctIds(items)
    ensures forall i :: 0 <= i < |items| ==> Optimistic(QtyMap(items), items[i]) == items[i].quantity
    ensures forall i :: 0 <= i < |items| ==> LineTotal(QtyMap(items), items[i]) == items[i].unitPrice * items[i].quantity
  {
    QtyMapRecordsEach(items);
  }

  /** Storing a line's quantity changes only that line's optimistic quantity. */
  lemma StoreOnlyThatLine(local: map<int, int>, it: CartItem, q: int, other: CartItem)
    ensures Optimistic(local[it.id := q], it) == q
    ensures other.id != it.id ==> Optimistic(local[it.id := q], other) == Optimistic(local, other)
  {
  }

  /** Decrementing right after incrementing gives the quantity back, as long
      as it was at least 1. */
  lemma IncrThenDecr(local: map<int, int>, it: CartItem)
    requires Optimistic(local, it) >= 1
    ensures Decremented(local[it.id := Incremented(local, it)], it) == Optimistic(local, it)
  {
    StoreOnlyThatLine(local, it, Incremented(local, it), it);
  }

  class CartPage {
    var items: seq<CartItem>
    var subtotal: int
    var loaded: bool
    var localQty: map<int, int>
    /** Requests sent to the cart service, oldest first. */
    var sent: seq<Request>

    constructor ()
      ensures items == [] && subtotal == 0 && !loaded && localQty == map[] && sent == []
    {
      items := [];
      subtotal := 0;
      loaded := false;
      localQty := map[];
      sent := [];
    }

    function OptimisticQty(it: CartItem): int
      reads this
    {
      Optimistic(localQty, it)
    }

    /** The reply to `getCart()`: None is a failed request, which only marks
        the page loaded. A reply replaces the items and subtotal (missing
        ones default to an empty list and 0) and rebuilds the local map from
        the server's quantities. */
    method Refresh(reply: Option<CartResponse>)
      modifies this
      ensures loaded && sent == old(sent)
      ensures reply.None? ==> items == old(items) && subtotal == old(subtotal) && localQty == old(localQty)
      ensures reply.Some? ==> items == ItemsOf(reply.value) && subtotal == SubtotalOf(reply.value)
      ensures reply.Some? ==> localQty == QtyMap(items)
    {
      if reply.None? {
        loaded := true;
        return;
      }
      var list := ItemsOf(reply.value);
      items := list;
      subtotal := SubtotalOf(reply.value);
      loaded := true;
      localQty := map[];
      var i := 0;
      while i < |list|
        invariant 0 <= i <= |list|
        invariant localQty == QtyMap(list[..i])
        invariant loaded && sent == old(sent) && items == list && subtotal == SubtotalOf(reply.value)
      {
        assert list[..i + 1] == list[..i] + [list[i]];
        QtyMapSnoc(list[..i], list[i]);
        localQty := localQty[list[i].id := list[i].quantity];
        i := i + 1;
      }
      assert list[..i] == list;
    }

    /** `incr`: store and send one more than the shown quantity. */
    method Incr(it: CartItem)
      modifies this
      ensures localQty == old(localQty)[it.id := Incremented(old(localQty), it)]
      ensures sent == old(sent) + [UpdateQty(it.id, Incremented(old(localQty), it))]
      ensures items == old(items) && subtotal == old(subtotal) && loaded == old(loaded)
      ensures OptimisticQty(it) == old(OptimisticQty(it)) + 1
    {
      var q := OptimisticQty(it) + 1;
      localQty := localQty[it.id := q];
      sent := sent + [UpdateQty(it.id, q)];
    }

    /** `decr`: store and send one less than the shown quantity, at least 1. */
    method Decr(it: CartItem)
      modifies this
      ensures localQty == old(localQty)[it.id := Decremented(old(localQty), it)]
      ensures sent == old(sent) + [UpdateQty(it.id, Decremented(old(localQty), it))]
      ensures items == old(items) && subtotal == old(subtotal) && loaded == old(loaded)
      ensures OptimisticQty(it) >= 1
    {
      var q := OptimisticQty(it) - 1;
      if q < 1 {
        q := 1;
      }
      localQty := localQty[it.id := q];
      sent := sent + [UpdateQty(it.id, q)];
    }

    /** `remove`: only sends the removal; the line goes at the next refresh. */
    method Remove(it: CartItem)
      modifies this
      ensures sent == old(sent) + [RemoveItem(it.id)]
      ensures items == old(items) && subtotal == old(subtotal) && loaded == old(loaded) && localQty == old(localQty)
    {
      sent := sent + [RemoveItem(it.id)];
    }
  }
}

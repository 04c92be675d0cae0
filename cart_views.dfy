/** The cart endpoints (backend/cart/views.py): finding or creating the
    caller's cart, adding to it, changing or removing one of its items,
    recording a delivery selection and reading the cart back. Every endpoint
    first runs `_get_or_create_cart`, so even a rejected request may leave a
    new empty cart behind. */
module CartViews {
  import opened Common
  import opened Tables
  import opened CartModels
  import opened CartSerializers
  import opened UserModels
  import opened Db

  /** The session key `_get_or_create_cart` uses: the request's own, or the
      newKey one `session.save()` creates when the request has none. */
  function SessionKey(session: Option<string>, newKey: string): string
  {
    if session.Some? && session.value != "" then session.value else newKey
  }

  /** What `Cart.objects.get_or_create` finds for a (user, session) key. */
  datatype Lookup = Found(index: nat) | Missing | Ambiguous

  function LookupCart(carts: seq<Cart>, key: (Option<nat>, string)): (r: Lookup)
    ensures r.Missing? <==> key !in KeySet(carts, CartKey)
    ensures r.Found? ==> r.index < |carts| && CartKey(carts[r.index]) == key
    ensures r.Found? ==> forall j :: 0 <= j < |carts| && CartKey(carts[j]) == key ==> j == r.index
    ensures Distinct(carts, CartKey) ==> !r.Ambiguous?
  {
    var n := Count(carts, CartKey, key);
    assert Distinct(carts, CartKey) ==> n <= 1 by {
      if Distinct(carts, CartKey) { CountDistinct(carts, CartKey, key); }
    }
    if n == 0 then Missing
    else if n == 1 then
      CountTwoAll(carts, CartKey);
      Found(Find(carts, CartKey, key).value)
    else Ambiguous
  }

  /** The store after `_get_or_create_cart`: one new empty cart when no cart
      has the caller's key, otherwise unchanged. */
  function AfterGetOrCreate(s: Store, user: Option<nat>, sid: string): (r: Store)
    ensures StoreOk(s) && (user.Some? ==> user.value in KeySet(s.users, UserId)) ==> StoreOk(r)
    ensures CartKeysUnique(s) ==> CartKeysUnique(r)
    ensures (user, sid) in KeySet(r.carts, CartKey)
    ensures forall x :: x in s.carts ==> x in r.carts
    ensures r.(carts := s.carts, nextCartId := s.nextCartId) == s
    ensures (user, sid) in KeySet(s.carts, CartKey) ==> r == s
  {
    if LookupCart(s.carts, (user, sid)).Missing? then
      var x := Cart(s.nextCartId, user, sid, None);
      CreateCartOk(s, x);
      s.(carts := s.carts + [x], nextCartId := s.nextCartId + 1)
    else s
  }

  /** Appending a cart with an unused id and an unused key keeps the store
      consistent and the keys unique. */
  lemma CreateCartOk(s: Store, x: Cart)
    requires x.id == s.nextCartId && CartKey(x) !in KeySet(s.carts, CartKey)
    ensures var r := s.(carts := s.carts + [x], nextCartId := s.nextCartId + 1);
      && (StoreOk(s) && (x.user.Some? ==> x.user.value in KeySet(s.users, UserId)) ==> StoreOk(r))
      && (CartKeysUnique(s) ==> CartKeysUnique(r))
      && CartKey(x) in KeySet(r.carts, CartKey)
  {
    var carts1 := s.carts + [x];
    assert x in carts1;
    if StoreOk(s) {
      DistinctAppend(s.carts, x, CartId);
    }
    if CartKeysUnique(s) {
      DistinctAppend(s.carts, x, CartKey);
    }
  }

  /** The cart `_get_or_create_cart` returns; None when several carts share
      the key, where `get_or_create` raises MultipleObjectsReturned. */
  function PickedCart(s: Store, user: Option<nat>, sid: string): (r: Option<nat>)
    ensures r.Some? ==> exists i :: (0 <= i < |AfterGetOrCreate(s, user, sid).carts|
      && AfterGetOrCreate(s, user, sid).carts[i].id == r.value
      && CartKey(AfterGetOrCreate(s, user, sid).carts[i]) == (user, sid))
    ensures CartKeysUnique(s) ==> r.Some?
  {
    match LookupCart(s.carts, (user, sid))
    case Missing =>
      assert AfterGetOrCreate(s, user, sid).carts[|s.carts|] == Cart(s.nextCartId, user, sid, None);
      Some(s.nextCartId)
    case Found(i) =>
      assert AfterGetOrCreate(s, user, sid) == s;
      Some(s.carts[i].id)
    case Ambiguous => None
  }

  /** Calling `_get_or_create_cart` a second time creates nothing more and
      returns the same cart. */
  lemma GetOrCreateIdempotent(s: Store, user: Option<nat>, sid: string)
    requires PickedCart(s, user, sid).Some?
    requires forall x :: x in s.carts ==> x.id < s.nextCartId
    ensures var s1 := AfterGetOrCreate(s, user, sid);
      AfterGetOrCreate(s1, user, sid) == s1 && PickedCart(s1, user, sid) == PickedCart(s, user, sid)
  {
    var key := (user, sid);
    if LookupCart(s.carts, key).Missing? {
      var x := Cart(s.nextCartId, user, sid, None);
      var carts1 := s.carts + [x];
      CountAppend(s.carts, x, CartKey, key);
      assert Count(carts1, CartKey, key) == 1;
      assert CartKey(carts1[|s.carts|]) == key;
    }
  }

  /** The row of cart `id`. */
  function CartRow(carts: seq<Cart>, id: nat): (c: Cart)
    requires id in KeySet(carts, CartId)
    ensures c in carts && c.id == id
  {
    carts[Find(carts, CartId, id).value]
  }

  /** The item a validated add request creates in `cart`. */
  function NewLine(id: nat, cart: nat, req: AddRequest): CartItem
  {
    CartItem(id, cart, req.productId, req.variantId, req.productTitle, req.unitPrice,
             req.quantity, req.imageUrl, req.weight)
  }

  function LineKey(cart: nat, req: AddRequest): (nat, string, string)
  {
    (cart, req.productId, req.variantId)
  }

  /** The store after the add path's `get_or_create` on (cart, product,
      variant): an existing item only gains the requested quantity, a new
      key gets a new item. */
  function AddLine(s: Store, cart: nat, req: AddRequest): (r: Store)
    ensures var k := LineKey(cart, req);
      && r.(items := s.items, nextItemId := s.nextItemId) == s
      && (k in KeySet(s.items, ItemKey) ==> |r.items| == |s.items| && r.nextItemId == s.nextItemId)
      && (k !in KeySet(s.items, ItemKey) ==> r.items == s.items + [NewLine(s.nextItemId, cart, req)])
  {
    match Find(s.items, ItemKey, LineKey(cart, req))
    case Some(i) =>
      var it := s.items[i];
      s.(items := s.items[i := it.(quantity := it.quantity + req.quantity)])
    case None =>
      s.(items := s.items + [NewLine(s.nextItemId, cart, req)], nextItemId := s.nextItemId + 1)
  }

  /** The add path's insert fails: the (product, variant) is new and a text
      is longer than its column. Merging only rewrites the quantity, so it
      never fails this way. */
  ghost predicate InsertTooLong(s: Store, cart: nat, req: AddRequest)
  {
    LineKey(cart, req) !in KeySet(s.items, ItemKey) && !ItemFits(NewLine(s.nextItemId, cart, req))
  }

  /** An add that does not fail keeps every line item within its column
      lengths. */
  lemma {:induction false} AddLineFits(s: Store, cart: nat, req: AddRequest)
    requires forall it :: it in s.items ==> ItemFits(it)
    requires !InsertTooLong(s, cart, req)
    ensures forall it :: it in AddLine(s, cart, req).items ==> ItemFits(it)
  {
    var items1 := AddLine(s, cart, req).items;
    match Find(s.items, ItemKey, LineKey(cart, req))
    case Some(i) =>
      assert items1 == s.items[i := s.items[i].(quantity := s.items[i].quantity + req.quantity)];
      forall it | it in items1 ensures ItemFits(it) {
        var j :| 0 <= j < |items1| && items1[j] == it;
        assert s.items[j] in s.items;
      }
    case None =>
      assert items1 == s.items + [NewLine(s.nextItemId, cart, req)];
  }

  /** Adding touches no item with another key. */
  lemma AddLineKeeps(s: Store, cart: nat, req: AddRequest)
    ensures var k := LineKey(cart, req);
      && (forall it :: it in s.items && ItemKey(it) != k ==> it in AddLine(s, cart, req).items)
      && (forall it :: it in AddLine(s, cart, req).items && ItemKey(it) != k ==> it in s.items)
  {
    var k := LineKey(cart, req);
    match Find(s.items, ItemKey, k)
    case Some(i) =>
      var items1 := AddLine(s, cart, req).items;
      assert items1 == s.items[i := s.items[i].(quantity := s.items[i].quantity + req.quantity)];
      forall it | it in s.items && ItemKey(it) != k ensures it in items1 {
        var j :| 0 <= j < |s.items| && s.items[j] == it;
        assert items1[j] == it;
      }
      forall it | it in items1 && ItemKey(it) != k ensures it in s.items {
        var j :| 0 <= j < |items1| && items1[j] == it;
        assert s.items[j] == it;
      }
    case None =>
  }

  /** The item the add path returns: the merged row or the new one. */
  function AddedLine(s: Store, cart: nat, req: AddRequest): (it: CartItem)
    ensures it in AddLine(s, cart, req).items && ItemKey(it) == LineKey(cart, req)
  {
    match Find(s.items, ItemKey, LineKey(cart, req))
    case Some(i) =>
      assert AddLine(s, cart, req).items[i] == s.items[i].(quantity := s.items[i].quantity + req.quantity);
      s.items[i].(quantity := s.items[i].quantity + req.quantity)
    case None =>
      assert AddLine(s, cart, req).items[|s.items|] == NewLine(s.nextItemId, cart, req);
      NewLine(s.nextItemId, cart, req)
  }

  /** Raising the quantity of one item keeps the item table consistent and
      leaves exactly one item with that item's key. */
  lemma MergeLineOk(cartIds: set<nat>, items: seq<CartItem>, next: nat, i: nat, q: nat)
    requires ItemsOk(cartIds, items, next) && i < |items|
    ensures var items1 := items[i := items[i].(quantity := items[i].quantity + q)];
      ItemsOk(cartIds, items1, next) && Count(items1, ItemKey, ItemKey(items[i])) == 1
  {
    var x := items[i].(quantity := items[i].quantity + q);
    var items1 := items[i := x];
    DistinctUpdate(items, i, x, ItemId);
    DistinctUpdate(items, i, x, ItemKey);
    forall y | y in items1 ensures y.cart in cartIds && y.quantity >= 1 {
      var j :| 0 <= j < |items1| && items1[j] == y;
      assert items[j] in items;
    }
    CountDistinct(items1, ItemKey, ItemKey(x));
    assert items1[i] in items1;
  }

  /** Appending an item with the next id, an unused key, an existing cart
      and a positive quantity keeps the item table consistent. */
  lemma AppendLineOk(cartIds: set<nat>, items: seq<CartItem>, next: nat, x: CartItem)
    requires ItemsOk(cartIds, items, next) && x.id == next && ItemKey(x) !in KeySet(items, ItemKey)
    requires x.cart in cartIds && x.quantity >= 1
    ensures ItemsOk(cartIds, items + [x], next + 1) && Count(items + [x], ItemKey, ItemKey(x)) == 1
  {
    DistinctAppend(items, x, ItemId);
    DistinctAppend(items, x, ItemKey);
    CountAppend(items, x, ItemKey, ItemKey(x));
  }

  /** Merging into item `i` keeps the store consistent, with one item for its key. */
  lemma MergeStoreOk(s: Store, i: nat, q: nat)
    requires StoreOk(s) && i < |s.items|
    ensures var items1 := s.items[i := s.items[i].(quantity := s.items[i].quantity + q)];
      StoreOk(s.(items := items1)) && Count(items1, ItemKey, ItemKey(s.items[i])) == 1
  {
    var items1 := s.items[i := s.items[i].(quantity := s.items[i].quantity + q)];
    MergeLineOk(KeySet(s.carts, CartId), s.items, s.nextItemId, i, q);
    WithItemsOk(s, items1, s.nextItemId);
  }

  /** Appending a new item of an existing cart under an unused key keeps the
      store consistent, with one item for its key. */
  lemma AppendStoreOk(s: Store, x: CartItem)
    requires StoreOk(s) && x.id == s.nextItemId && ItemKey(x) !in KeySet(s.items, ItemKey)
    requires x.cart in KeySet(s.carts, CartId) && x.quantity >= 1
    ensures StoreOk(s.(items := s.items + [x], nextItemId := s.nextItemId + 1))
    ensures Count(s.items + [x], ItemKey, ItemKey(x)) == 1
  {
    AppendLineOk(KeySet(s.carts, CartId), s.items, s.nextItemId, x);
    WithItemsOk(s, s.items + [x], s.nextItemId + 1);
  }

  /** Proof step for `AddLineCount` and `AddLineOk`: unfolds `AddLine` into
      its merge and append cases. */
  lemma AddLineShape(s: Store, cart: nat, req: AddRequest)
    ensures Find(s.items, ItemKey, LineKey(cart, req)).Some? ==>
      var i := Find(s.items, ItemKey, LineKey(cart, req)).value;
      AddLine(s, cart, req) == s.(items := s.items[i := s.items[i].(quantity := s.items[i].quantity + req.quantity)])
    ensures Find(s.items, ItemKey, LineKey(cart, req)).None? ==>
      AddLine(s, cart, req) == s.(items := s.items + [NewLine(s.nextItemId, cart, req)], nextItemId := s.nextItemId + 1)
  {
  }

  /** With (cart, product, variant) unique before, the add path leaves
      exactly one item for the requested key. */
  lemma AddLineCount(s: Store, cart: nat, req: AddRequest)
    requires Distinct(s.items, ItemKey)
    ensures Count(AddLine(s, cart, req).items, ItemKey, LineKey(cart, req)) == 1
  {
    AddLineShape(s, cart, req);
    var k := LineKey(cart, req);
    var f := Find(s.items, ItemKey, k);
    if f.Some? {
      var i := f.value;
      var x := s.items[i].(quantity := s.items[i].quantity + req.quantity);
      var items1 := s.items[i := x];
      DistinctUpdate(s.items, i, x, ItemKey);
      CountDistinct(items1, ItemKey, k);
      assert items1[i] in items1;
    } else {
      CountAppend(s.items, NewLine(s.nextItemId, cart, req), ItemKey, k);
    }
  }

  /** The add path keeps the store consistent: in particular it never gives
      a cart two items for one (product, variant). */
  lemma AddLineOk(s: Store, cart: nat, req: AddRequest)
    requires StoreOk(s) && cart in KeySet(s.carts, CartId) && req.quantity >= 1
    ensures StoreOk(AddLine(s, cart, req))
  {
    AddLineShape(s, cart, req);
    var f := Find(s.items, ItemKey, LineKey(cart, req));
    if f.Some? {
      MergeStoreOk(s, f.value, req.quantity);
    } else {
      AppendStoreOk(s, NewLine(s.nextItemId, cart, req));
    }
  }

  /** When the cart already holds the (product, variant), the item the add
      path returns is that item with the quantity raised: its price, title,
      image and weight are kept and the request's are ignored. */
  lemma AddedLineMerges(s: Store, cart: nat, req: AddRequest, it: CartItem)
    requires Distinct(s.items, ItemKey) && it in s.items && ItemKey(it) == LineKey(cart, req)
    ensures AddedLine(s, cart, req) == it.(quantity := it.quantity + req.quantity)
  {
    var j :| 0 <= j < |s.items| && s.items[j] == it;
    FindUnique(s.items, ItemKey, LineKey(cart, req), j);
  }

  /** Adding raises the cart's subtotal by the added quantity times the
      item's unit price (the stored one when merging) and leaves every other
      cart's subtotal alone. */
  lemma AddLineSubtotal(s: Store, cart: nat, req: AddRequest, d: nat)
    ensures Subtotal(AddLine(s, cart, req).items, d)
      == Subtotal(s.items, d) + (if d == cart then AddedLine(s, cart, req).unitPrice * req.quantity else 0)
  {
    match Find(s.items, ItemKey, LineKey(cart, req))
    case Some(i) =>
      assert AddLine(s, cart, req).items == s.items[i := s.items[i].(quantity := s.items[i].quantity + req.quantity)];
      MergeSubtotal(s.items, i, req.quantity, d);
    case None =>
      var x := NewLine(s.nextItemId, cart, req);
      assert AddLine(s, cart, req).items == s.items + [x];
      SubtotalInsert(s.items, x, d);
  }

  /** Raising one item's quantity by `q` raises its cart's subtotal by `q`
      times its unit price. */
  lemma MergeSubtotal(items: seq<CartItem>, i: nat, q: nat, d: nat)
    requires i < |items|
    ensures Subtotal(items[i := items[i].(quantity := items[i].quantity + q)], d)
      == Subtotal(items, d) + (if items[i].cart == d then items[i].unitPrice * q else 0)
  {
    var it := items[i];
    SubtotalReplace(items, i, it.(quantity := it.quantity + q), d);
    assert it.unitPrice * (it.quantity + q) == it.unitPrice * it.quantity + it.unitPrice * q;
  }

  /** The index of item `pk` when it belongs to cart `c`, as
      `get_object_or_404(CartItem, pk=pk, cart=cart)` finds it. */
  function ItemIn(items: seq<CartItem>, c: nat, pk: nat): (r: Option<nat>)
    ensures r.Some? ==> r.value < |items| && items[r.value].id == pk && items[r.value].cart == c
    ensures Distinct(items, ItemId) && r.None? ==> forall it :: it in items && it.id == pk ==> it.cart != c
  {
    match Find(items, ItemId, pk)
    case None => None
    case Some(i) =>
      assert Distinct(items, ItemId) ==> forall it :: it in items && it.id == pk ==> it == items[i] by {
        if Distinct(items, ItemId) {
          forall it | it in items && it.id == pk ensures it == items[i] {
            var j :| 0 <= j < |items| && items[j] == it;
            FindUnique(items, ItemId, pk, j);
          }
        }
      }
      if items[i].cart == c then Some(i) else None
  }

  /** The `quantity` of a patch request after `int(...)`: absent, a number
      (already truncated by `int`), or something `int` rejects. */
  datatype QuantityInput = QtyAbsent | QtyNumber(q: int) | QtyBad

  /** `max(1, int(request.data.get("quantity", item.quantity)))`; None when
      `int` raises. */
  function NewQuantity(current: nat, q: QuantityInput): (r: Option<nat>)
    ensures r.None? <==> q.QtyBad?
    ensures r.Some? ==> r.value >= 1
    ensures q.QtyAbsent? && current >= 1 ==> r == Some(current)
    ensures q.QtyAbsent? && current < 1 ==> r == Some(1)
    ensures q.QtyNumber? && q.q >= 1 ==> r == Some(q.q)
    ensures q.QtyNumber? && q.q < 1 ==> r == Some(1)
  {
    match q
    case QtyAbsent => Some(if current < 1 then 1 else current)
    case QtyNumber(n) => Some(if n < 1 then 1 else n)
    case QtyBad => None
  }

  /** The store after item `i` gets quantity `n`. */
  function SetQuantity(s: Store, i: nat, n: nat): (r: Store)
    requires i < |s.items|
    ensures StoreOk(s) && n >= 1 ==> StoreOk(r)
    ensures r.(items := s.items) == s && |r.items| == |s.items|
    ensures r.items[i].quantity == n
    ensures r.items[i].(quantity := s.items[i].quantity) == s.items[i]
    ensures forall j :: 0 <= j < |s.items| && j != i ==> r.items[j] == s.items[j]
    ensures forall d ::
      Subtotal(r.items, d) == Subtotal(s.items, d) - Share(s.items[i], d) + Share(s.items[i].(quantity := n), d)
  {
    var x := s.items[i].(quantity := n);
    DistinctUpdate(s.items, i, x, ItemId);
    DistinctUpdate(s.items, i, x, ItemKey);
    forall d ensures Subtotal(s.items[i := x], d) == Subtotal(s.items, d) - Share(s.items[i], d) + Share(x, d) {
      SubtotalReplace(s.items, i, x, d);
    }
    var r := s.(items := s.items[i := x]);
    assert StoreOk(s) && n >= 1 ==> StoreOk(r) by {
      if StoreOk(s) && n >= 1 {
        forall it | it in r.items ensures it.cart in KeySet(s.carts, CartId) && it.quantity >= 1 {
          var j :| 0 <= j < |r.items| && r.items[j] == it;
          assert s.items[j] in s.items;
        }
      }
    }
    r
  }

  /** The store after item `i` is deleted. */
  function RemoveItem(s: Store, i: nat): (r: Store)
    requires i < |s.items|
    ensures StoreOk(s) ==> StoreOk(r)
    ensures r.(items := s.items) == s && |r.items| == |s.items| - 1
    ensures StoreOk(s) ==> forall it :: it in r.items <==> it in s.items && it.id != s.items[i].id
    ensures forall d :: Subtotal(r.items, d) == Subtotal(s.items, d) - Share(s.items[i], d)
  {
    var items1 := RemoveAt(s.items, i);
    forall d ensures Subtotal(items1, d) == Subtotal(s.items, d) - Share(s.items[i], d) {
      SubtotalRemove(s.items, i, d);
    }
    assert StoreOk(s) ==> forall it :: it in items1 <==> it in s.items && it.id != s.items[i].id by {
      if StoreOk(s) {
        forall it | it in items1 ensures it in s.items && it.id != s.items[i].id {
          var j :| 0 <= j < |items1| && items1[j] == it;
          if j < i { assert it == s.items[j]; } else { assert it == s.items[j + 1]; }
        }
        forall it | it in s.items && it.id != s.items[i].id ensures it in items1 {
          var j :| 0 <= j < |s.items| && s.items[j] == it;
          if j < i { assert items1[j] == it; } else if j > i { assert items1[j - 1] == it; }
        }
      }
    }
    var r := s.(items := items1);
    assert StoreOk(s) ==> StoreOk(r) by {
      if StoreOk(s) {
        DistinctRemoveAt(s.items, i, ItemId);
        DistinctRemoveAt(s.items, i, ItemKey);
      }
    }
    r
  }

  /** The cart table after `cart.delivery_method`/`delivery_price` are set
      on cart `id` and saved. */
  function SetDelivery(carts: seq<Cart>, id: nat, sel: DeliverySelection): (r: seq<Cart>)
    ensures |r| == |carts|
    ensures forall i :: 0 <= i < |r| ==> r[i].(delivery := carts[i].delivery) == carts[i]
    ensures forall i :: 0 <= i < |r| ==> r[i].delivery == if carts[i].id == id then Some(sel) else carts[i].delivery
  {
    if |carts| == 0 then []
    else [if carts[0].id == id then carts[0].(delivery := Some(sel)) else carts[0]] + SetDelivery(carts[1..], id, sel)
  }

  /** Recording a delivery selection changes no cart id, owner or session. */
  lemma SetDeliveryKeys(carts: seq<Cart>, id: nat, sel: DeliverySelection)
    ensures KeySet(SetDelivery(carts, id, sel), CartId) == KeySet(carts, CartId)
    ensures Distinct(SetDelivery(carts, id, sel), CartId) <==> Distinct(carts, CartId)
    ensures Distinct(SetDelivery(carts, id, sel), CartKey) <==> Distinct(carts, CartKey)
  {
    SameKeys(carts, SetDelivery(carts, id, sel), CartId, CartId);
    SameKeys(carts, SetDelivery(carts, id, sel), CartKey, CartKey);
  }

  lemma SetDeliveryCartsOk(userIds: set<nat>, carts: seq<Cart>, next: nat, id: nat, sel: DeliverySelection)
    requires CartsOk(userIds, carts, next)
    ensures CartsOk(userIds, SetDelivery(carts, id, sel), next)
  {
    var carts1 := SetDelivery(carts, id, sel);
    SetDeliveryKeys(carts, id, sel);
    forall x | x in carts1 ensures x.id < next && (x.user.Some? ==> x.user.value in userIds) {
      SetDeliveryOwner(carts, id, sel, x);
    }
  }

  /** Every cart after the selection is some cart before it with only its
      delivery changed. */
  lemma SetDeliveryOwner(carts: seq<Cart>, id: nat, sel: DeliverySelection, x: Cart)
    requires x in SetDelivery(carts, id, sel)
    ensures exists y :: y in carts && y.id == x.id && y.user == x.user
  {
    var i :| 0 <= i < |carts| && SetDelivery(carts, id, sel)[i] == x;
    assert carts[i] in carts;
  }

  /** Recording a delivery selection keeps the store consistent. */
  lemma SetDeliveryOk(s: Store, id: nat, sel: DeliverySelection)
    ensures StoreOk(s) ==> StoreOk(s.(carts := SetDelivery(s.carts, id, sel)))
    ensures CartKeysUnique(s) ==> CartKeysUnique(s.(carts := SetDelivery(s.carts, id, sel)))
    ensures KeySet(SetDelivery(s.carts, id, sel), CartId) == KeySet(s.carts, CartId)
  {
    SetDeliveryKeys(s.carts, id, sel);
    if StoreOk(s) {
      SetDeliveryCartsOk(KeySet(s.users, UserId), s.carts, s.nextCartId, id, sel);
    }
  }

  /** What the add endpoint answers. */
  datatype AddReply = Added(id: nat, totalPrice: int, weight: int) | Invalid(fields: seq<string>) | AddFailed

  /** `CartItemAddView.post`. */
  method AddItem(db: Database, user: Option<nat>, session: Option<string>, newKey: string, input: AddInput)
    returns (status: int, reply: AddReply)
    requires db.Valid()
    requires user.Some? ==> user.value in KeySet(db.state.users, UserId)
    modifies db
    ensures db.Valid()
    ensures var sid := SessionKey(session, newKey);
      var s1 := AfterGetOrCreate(old(db.state), user, sid);
      var c := PickedCart(old(db.state), user, sid);
      var v := ValidateAdd(input);
      && (c.None? ==> status == SERVER_ERROR && reply == AddFailed && db.state == s1)
      && (c.Some? && v.Err? ==> status == BAD_REQUEST && reply == Invalid(v.error) && db.state == s1)
      && (c.Some? && v.Ok? && InsertTooLong(s1, c.value, v.value) ==>
            status == SERVER_ERROR && reply == AddFailed && db.state == s1)
      && (c.Some? && v.Ok? && !InsertTooLong(s1, c.value, v.value) ==>
            && status == CREATED && db.state == AddLine(s1, c.value, v.value)
            && var it := AddedLine(s1, c.value, v.value);
               reply == Added(it.id, TotalPrice(it), it.weight))
  {
    var cart := GetOrCreateCart(db, user, session, newKey);
    if cart.None? {
      return SERVER_ERROR, AddFailed;
    }
    var v := ValidateAdd(input);
    if v.Err? {
      return BAD_REQUEST, Invalid(v.error);
    }
    var s := db.state;
    if Find(s.items, ItemKey, LineKey(cart.value, v.value)).None?
       && !ItemFits(NewLine(s.nextItemId, cart.value, v.value)) {
      return SERVER_ERROR, AddFailed;
    }
    AddLineOk(s, cart.value, v.value);
    db.state := AddLine(s, cart.value, v.value);
    var it := AddedLine(s, cart.value, v.value);
    return CREATED, Added(it.id, TotalPrice(it), it.weight);
  }

  /** `_get_or_create_cart`. */
  method GetOrCreateCart(db: Database, user: Option<nat>, session: Option<string>, newKey: string)
    returns (cart: Option<nat>)
    requires db.Valid()
    requires user.Some? ==> user.value in KeySet(db.state.users, UserId)
    modifies db
    ensures db.Valid()
    ensures db.state == AfterGetOrCreate(old(db.state), user, SessionKey(session, newKey))
    ensures cart == PickedCart(old(db.state), user, SessionKey(session, newKey))
    ensures cart.Some? ==> cart.value in KeySet(db.state.carts, CartId)
  {
    var sid := SessionKey(session, newKey);
    var s := db.state;
    match LookupCart(s.carts, (user, sid)) {
      case Missing =>
        cart := Some(s.nextCartId);
        db.state := s.(carts := s.carts + [Cart(s.nextCartId, user, sid, None)], nextCartId := s.nextCartId + 1);
      case Found(i) =>
        cart := Some(s.carts[i].id);
      case Ambiguous =>
        cart := None;
    }
  }

  /** `CartItemUpdateDeleteView.patch`. */
  method PatchItem(db: Database, user: Option<nat>, session: Option<string>, newKey: string, pk: nat, q: QuantityInput)
    returns (status: int, reply: Option<(nat, int)>)
    requires db.Valid()
    requires user.Some? ==> user.value in KeySet(db.state.users, UserId)
    modifies db
    ensures db.Valid()
    ensures var sid := SessionKey(session, newKey);
      var s1 := AfterGetOrCreate(old(db.state), user, sid);
      var c := PickedCart(old(db.state), user, sid);
      && (c.None? ==> status == SERVER_ERROR && reply.None? && db.state == s1)
      && (c.Some? && ItemIn(s1.items, c.value, pk).None? ==> status == NOT_FOUND && reply.None? && db.state == s1)
      && (c.Some? && ItemIn(s1.items, c.value, pk).Some? ==>
            var i := ItemIn(s1.items, c.value, pk).value;
            var n := NewQuantity(s1.items[i].quantity, q);
            && (n.None? ==> status == SERVER_ERROR && reply.None? && db.state == s1)
            && (n.Some? ==>
                  && status == OK && db.state == SetQuantity(s1, i, n.value)
                  && reply == Some((pk, s1.items[i].unitPrice * n.value))))
  {
    var cart := GetOrCreateCart(db, user, session, newKey);
    if cart.None? {
      return SERVER_ERROR, None;
    }
    var s := db.state;
    var found := ItemIn(s.items, cart.value, pk);
    if found.None? {
      return NOT_FOUND, None;
    }
    var i := found.value;
    var n := NewQuantity(s.items[i].quantity, q);
    if n.None? {
      return SERVER_ERROR, None;
    }
    db.state := SetQuantity(s, i, n.value);
    return OK, Some((pk, s.items[i].unitPrice * n.value));
  }

  /** `CartItemUpdateDeleteView.delete`. */
  method DeleteItem(db: Database, user: Option<nat>, session: Option<string>, newKey: string, pk: nat)
    returns (status: int)
    requires db.Valid()
    requires user.Some? ==> user.value in KeySet(db.state.users, UserId)
    modifies db
    ensures db.Valid()
    ensures var sid := SessionKey(session, newKey);
      var s1 := AfterGetOrCreate(old(db.state), user, sid);
      var c := PickedCart(old(db.state), user, sid);
      && (c.None? ==> status == SERVER_ERROR && db.state == s1)
      && (c.Some? && ItemIn(s1.items, c.value, pk).None? ==> status == NOT_FOUND && db.state == s1)
      && (c.Some? && ItemIn(s1.items, c.value, pk).Some? ==>
            status == NO_CONTENT && db.state == RemoveItem(s1, ItemIn(s1.items, c.value, pk).value))
  {
    var cart := GetOrCreateCart(db, user, session, newKey);
    if cart.None? {
      return SERVER_ERROR;
    }
    var s := db.state;
    var found := ItemIn(s.items, cart.value, pk);
    if found.None? {
      return NOT_FOUND;
    }
    db.state := RemoveItem(s, found.value);
    return NO_CONTENT;
  }

  /** `CartDeliveryView.post`: an empty or missing `delivery_method` or a
      missing `delivery_price` is refused; a price of 0 is accepted. */
  method ChooseCartDelivery(db: Database, user: Option<nat>, session: Option<string>, newKey: string,
                            mode: Option<string>, price: Option<int>)
    returns (status: int, view: Option<CartView>)
    requires db.Valid()
    requires user.Some? ==> user.value in KeySet(db.state.users, UserId)
    modifies db
    ensures db.Valid()
    ensures var sid := SessionKey(session, newKey);
      var s1 := AfterGetOrCreate(old(db.state), user, sid);
      var c := PickedCart(old(db.state), user, sid);
      && (c.None? ==> status == SERVER_ERROR && view.None? && db.state == s1)
      && (c.Some? && (mode.None? || mode.value == "" || price.None?) ==>
            status == BAD_REQUEST && view.None? && db.state == s1)
      && (c.Some? && mode.Some? && mode.value != "" && price.Some? ==>
            var carts2 := SetDelivery(s1.carts, c.value, DeliverySelection(mode.value, price.value));
            && db.state == s1.(carts := carts2)
            && c.value in KeySet(carts2, CartId)
            && (Renderable(s1.items, c.value) ==>
                  status == OK && view == Some(SerializeCart(CartRow(carts2, c.value), s1.items)))
            && (!Renderable(s1.items, c.value) ==> status == SERVER_ERROR && view.None?))
  {
    var cart := GetOrCreateCart(db, user, session, newKey);
    if cart.None? {
      return SERVER_ERROR, None;
    }
    if mode.None? || mode.value == "" || price.None? {
      return BAD_REQUEST, None;
    }
    var s := db.state;
    SetDeliveryOk(s, cart.value, DeliverySelection(mode.value, price.value));
    var carts2 := SetDelivery(s.carts, cart.value, DeliverySelection(mode.value, price.value));
    db.state := s.(carts := carts2);
    if !Renderable(s.items, cart.value) {
      return SERVER_ERROR, None;
    }
    return OK, Some(SerializeCart(CartRow(carts2, cart.value), s.items));
  }

  /** `CartDetailView.get`. */
  method CartDetail(db: Database, user: Option<nat>, session: Option<string>, newKey: string)
    returns (status: int, view: Option<CartView>)
    requires db.Valid()
    requires user.Some? ==> user.value in KeySet(db.state.users, UserId)
    modifies db
    ensures db.Valid()
    ensures var sid := SessionKey(session, newKey);
      var c := PickedCart(old(db.state), user, sid);
      && db.state == AfterGetOrCreate(old(db.state), user, sid)
      && (c.None? ==> status == SERVER_ERROR && view.None?)
      && (c.Some? ==> c.value in KeySet(db.state.carts, CartId))
      && (c.Some? && Renderable(db.state.items, c.value) ==>
            status == OK && view == Some(SerializeCart(CartRow(db.state.carts, c.value), db.state.items)))
      && (c.Some? && !Renderable(db.state.items, c.value) ==> status == SERVER_ERROR && view.None?)
  {
    var cart := GetOrCreateCart(db, user, session, newKey);
    if cart.None? {
      return SERVER_ERROR, None;
    }
    if !Renderable(db.state.items, cart.value) {
      return SERVER_ERROR, None;
    }
    return OK, Some(SerializeCart(CartRow(db.state.carts, cart.value), db.state.items));
  }
}

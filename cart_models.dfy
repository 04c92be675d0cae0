/** The cart tables (backend/cart/models.py). Prices are integer cents,
    weights integer hundredths of a kilogram. */
module CartModels {
  import opened Common
  import opened Tables

  /** The delivery selection the cart delivery view assigns to a cart. The
      cart table declares no such columns; the model keeps it as the view
      expects it to exist (see README). */
  datatype DeliverySelection = DeliverySelection(mode: string, price: int)

  /** A cart row: `user` is null for an anonymous cart, and becomes null
      when its owner is deleted. */
  datatype Cart = Cart(id: nat, user: Option<nat>, sessionId: string, delivery: Option<DeliverySelection>)

  /** A line item row. `weight` is written and read by the cart views and
      serializers although the table declares no such column (see README). */
  datatype CartItem = CartItem(
    id: nat,
    cart: nat,
    productId: string,
    variantId: string,
    title: string,
    unitPrice: int,
    quantity: nat,
    imageUrl: string,
    weight: int)

  /** Default quantity of a new line item row. */
  const DEFAULT_QUANTITY: nat := 1

  /** Column lengths of the line item table: `product_id` and `variant_id`
      (`max_length` 50 and 100), `product_title` (255) and `image_url`
      (`URLField`'s default 200). PostgreSQL refuses a longer value on
      insert. */
  const PRODUCT_ID_MAX_LENGTH: nat := 50
  const VARIANT_ID_MAX_LENGTH: nat := 100
  const TITLE_MAX_LENGTH: nat := 255
  const IMAGE_URL_MAX_LENGTH: nat := 200

  /** A line item whose text fits its columns. */
  predicate ItemFits(it: CartItem)
  {
    && |it.productId| <= PRODUCT_ID_MAX_LENGTH && |it.variantId| <= VARIANT_ID_MAX_LENGTH
    && |it.title| <= TITLE_MAX_LENGTH && |it.imageUrl| <= IMAGE_URL_MAX_LENGTH
  }

  function CartId(c: Cart): nat { c.id }
  /** The lookup key `get_or_create` uses for carts. */
  function CartKey(c: Cart): (Option<nat>, string) { (c.user, c.sessionId) }
  function ItemId(it: CartItem): nat { it.id }
  function ItemCart(it: CartItem): nat { it.cart }
  /** The indexed (cart, product_id, variant_id) triple; the table does not
      declare it unique. */
  function ItemKey(it: CartItem): (nat, string, string) { (it.cart, it.productId, it.variantId) }

  /** `CartItem.total_price`. */
  function TotalPrice(it: CartItem): int { it.unitPrice * it.quantity }

  /** The contribution of a row to the subtotal of cart `c`. */
  function Share(it: CartItem, c: nat): int { if it.cart == c then TotalPrice(it) else 0 }

  /** `cart.items.all()`: the rows of cart `c`, in table order. */
  function ItemsOf(items: seq<CartItem>, c: nat): (r: seq<CartItem>)
    ensures |r| <= |items|
    ensures forall it :: it in r <==> it in items && it.cart == c
  {
    if |items| == 0 then []
    else (if items[0].cart == c then [items[0]] else []) + ItemsOf(items[1..], c)
  }

  /** Sum of the line totals of a list of rows. */
  function Sum(items: seq<CartItem>): int
  {
    if |items| == 0 then 0 else TotalPrice(items[0]) + Sum(items[1..])
  }

  /** `Cart.subtotal`: the sum of the line totals of the cart's rows. */
  function Subtotal(items: seq<CartItem>, c: nat): int
  {
    Sum(ItemsOf(items, c))
  }

  lemma {:induction false} SumAppend(a: seq<CartItem>, b: seq<CartItem>)
    ensures Sum(a + b) == Sum(a) + Sum(b)
  {
    if |a| > 0 {
      assert (a + b)[1..] == a[1..] + b;
      SumAppend(a[1..], b);
    } else {
      assert a + b == b;
    }
  }

  lemma {:induction false} ItemsOfAppend(a: seq<CartItem>, b: seq<CartItem>, c: nat)
    ensures ItemsOf(a + b, c) == ItemsOf(a, c) + ItemsOf(b, c)
  {
    if |a| > 0 {
      assert (a + b)[1..] == a[1..] + b;
      ItemsOfAppend(a[1..], b, c);
    } else {
      assert a + b == b;
    }
  }

  /** The subtotal of a table split in two parts is the sum of the parts'. */
  lemma SubtotalAppend(a: seq<CartItem>, b: seq<CartItem>, c: nat)
    ensures Subtotal(a + b, c) == Subtotal(a, c) + Subtotal(b, c)
  {
    ItemsOfAppend(a, b, c);
    SumAppend(ItemsOf(a, c), ItemsOf(b, c));
  }

  /** A single row contributes its line total to its own cart only. */
  lemma SubtotalSingle(x: CartItem, c: nat)
    ensures Subtotal([x], c) == Share(x, c)
  {
    assert [x][1..] == [];
    assert ItemsOf([x], c) == if x.cart == c then [x] else [];
    assert Sum([x]) == TotalPrice(x) + Sum([]);
  }

  /** An empty cart has subtotal 0, and so has a cart with no rows. */
  lemma {:induction false} SubtotalEmpty(items: seq<CartItem>, c: nat)
    requires forall it :: it in items ==> it.cart != c
    ensures ItemsOf(items, c) == [] && Subtotal(items, c) == 0
  {
    if |items| > 0 {
      assert items[0] in items;
      SubtotalEmpty(items[1..], c);
    }
  }

  /** Inserting a row changes the subtotal of its cart by the row's line
      total, and no other cart's. */
  lemma SubtotalInsert(items: seq<CartItem>, x: CartItem, c: nat)
    ensures Subtotal(items + [x], c) == Subtotal(items, c) + Share(x, c)
  {
    SubtotalAppend(items, [x], c);
    SubtotalSingle(x, c);
  }

  /** Replacing row i changes each cart's subtotal by the difference of the
      two rows' shares. */
  lemma SubtotalReplace(items: seq<CartItem>, i: nat, x: CartItem, c: nat)
    requires i < |items|
    ensures Subtotal(items[i := x], c) == Subtotal(items, c) - Share(items[i], c) + Share(x, c)
  {
    var pre, post := items[..i], items[i + 1..];
    assert items == pre + [items[i]] + post;
    assert items[i := x] == pre + [x] + post;
    SubtotalAppend(pre + [items[i]], post, c);
    SubtotalAppend(pre, [items[i]], c);
    SubtotalAppend(pre + [x], post, c);
    SubtotalAppend(pre, [x], c);
    SubtotalSingle(items[i], c);
    SubtotalSingle(x, c);
  }

  /** Deleting row i lowers the subtotal of its cart by the row's line
      total, and leaves every other cart's subtotal alone. */
  lemma SubtotalRemove(items: seq<CartItem>, i: nat, c: nat)
    requires i < |items|
    ensures Subtotal(RemoveAt(items, i), c) == Subtotal(items, c) - Share(items[i], c)
  {
    var pre, post := items[..i], items[i + 1..];
    assert items == pre + [items[i]] + post;
    assert RemoveAt(items, i) == pre + post;
    SubtotalAppend(pre + [items[i]], post, c);
    SubtotalAppend(pre, [items[i]], c);
    SubtotalAppend(pre, post, c);
    SubtotalSingle(items[i], c);
  }

  /** The rows of a cart after the cart is deleted (`on_delete=CASCADE`):
      none of the cart's rows survive, every other row does, in order. */
  function DeleteCartItems(items: seq<CartItem>, c: nat): (r: seq<CartItem>)
    ensures forall it :: it in r <==> it in items && it.cart != c
    ensures Distinct(items, ItemId) ==> Distinct(r, ItemId)
    ensures Distinct(items, ItemKey) ==> Distinct(r, ItemKey)
  {
    var keep := (it: CartItem) => it.cart != c;
    assert Distinct(items, ItemId) ==> Distinct(Filter(items, keep), ItemId) by {
      if Distinct(items, ItemId) { FilterDistinct(items, keep, ItemId); }
    }
    assert Distinct(items, ItemKey) ==> Distinct(Filter(items, keep), ItemKey) by {
      if Distinct(items, ItemKey) { FilterDistinct(items, keep, ItemKey); }
    }
    Filter(items, keep)
  }

  /** After the cascade the deleted cart's subtotal is 0 and every other
      cart keeps its subtotal. */
  lemma {:induction false} DeleteCartItemsSubtotal(items: seq<CartItem>, c: nat, d: nat)
    ensures Subtotal(DeleteCartItems(items, c), d) == if d == c then 0 else Subtotal(items, d)
  {
    if |items| > 0 {
      DeleteCartItemsSubtotal(items[1..], c, d);
      var head := if items[0].cart != c then [items[0]] else [];
      assert DeleteCartItems(items, c) == head + DeleteCartItems(items[1..], c);
      SubtotalAppend(head, DeleteCartItems(items[1..], c), d);
      assert items == [items[0]] + items[1..];
      SubtotalAppend([items[0]], items[1..], d);
      SubtotalSingle(items[0], d);
      if head != [] { SubtotalSingle(items[0], d); }
    }
  }

  /** The cart table after cart `c` is deleted. */
  function DeleteCartRow(carts: seq<Cart>, c: nat): (r: seq<Cart>)
    ensures forall x :: x in r <==> x in carts && x.id != c
    ensures Distinct(carts, CartId) ==> Distinct(r, CartId)
  {
    var keep := (x: Cart) => x.id != c;
    assert Distinct(carts, CartId) ==> Distinct(Filter(carts, keep), CartId) by {
      if Distinct(carts, CartId) { FilterDistinct(carts, keep, CartId); }
    }
    Filter(carts, keep)
  }

  /** Deleting a user sets the `user` of their carts to null
      (`on_delete=SET_NULL`) and changes nothing else. */
  function DetachUser(carts: seq<Cart>, u: nat): (r: seq<Cart>)
    ensures |r| == |carts|
    ensures forall i :: 0 <= i < |r| ==>
      r[i] == if carts[i].user == Some(u) then carts[i].(user := None) else carts[i]
  {
    if |carts| == 0 then []
    else [if carts[0].user == Some(u) then carts[0].(user := None) else carts[0]] + DetachUser(carts[1..], u)
  }
}

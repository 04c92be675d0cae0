/** Input validation for adding a line item, and the serialized form of a
    cart (backend/cart/serializers.py). */
module CartSerializers {
  import opened Common
  import opened Text
  import opened CartModels

  /** A decimal number as it is parsed: `coeff × 10^-places`, trailing zeros
      included (1.50 is Decimal(150, 2)). */
  datatype Decimal = Decimal(coeff: int, places: nat)

  /** `DecimalField(max_digits, decimal_places)` accepts a number with at
      most `decimalPlaces` fraction digits and at most
      `maxDigits - decimalPlaces` whole digits. */
  predicate ValidDecimal(d: Decimal, maxDigits: nat, decimalPlaces: nat)
    requires decimalPlaces <= maxDigits
  {
    d.places <= decimalPlaces && FitsDigits(d.coeff, maxDigits - decimalPlaces + d.places)
  }

  /** The accepted value in units of its last allowed decimal place. */
  function Units(d: Decimal, decimalPlaces: nat): int
    requires d.places <= decimalPlaces
  {
    d.coeff * Pow10(decimalPlaces - d.places)
  }

  /** Arithmetic helper for `UnitsFit`: scaling by a positive factor keeps
      a strict order. */
  lemma MulMonotone(a: int, b: int, p: int)
    requires a < b && p > 0
    ensures a * p < b * p
  {
    assert b * p - a * p == (b - a) * p;
  }

  /** An accepted decimal, scaled to its column's unit, fits the column's
      digit bound. */
  lemma UnitsFit(d: Decimal, maxDigits: nat, decimalPlaces: nat)
    requires decimalPlaces <= maxDigits && ValidDecimal(d, maxDigits, decimalPlaces)
    ensures FitsDigits(Units(d, decimalPlaces), maxDigits)
  {
    var k := decimalPlaces - d.places;
    var w := maxDigits - decimalPlaces + d.places;
    var p := Pow10(k) as int;
    var bound := Pow10(w) as int;
    Pow10Add(w, k);
    assert w + k == maxDigits;
    assert Pow10(maxDigits) as int == bound * p;
    MulMonotone(d.coeff, bound, p);
    MulMonotone(-bound, d.coeff, p);
    assert (-bound) * p == -(bound * p);
  }

  /** The request body of an add-to-cart call (`CartItemCreateSerializer`). */
  datatype AddInput = AddInput(
    productId: Input<string>,
    variantId: Input<string>,
    quantity: Input<int>,
    unitPrice: Input<Decimal>,
    productTitle: Input<string>,
    imageUrl: Input<string>,
    weight: Input<Decimal>)

  /** The validated data, with prices in cents and weight in hundredths. */
  datatype AddRequest = AddRequest(
    productId: string,
    variantId: string,
    quantity: nat,
    unitPrice: int,
    productTitle: string,
    imageUrl: string,
    weight: int)

  /** A required `CharField()`: present and not blank. */
  predicate RequiredText(f: Input<string>)
  {
    f.Given? && !Blank(f.value)
  }

  /** An optional `CharField(allow_blank=True, required=False)`. */
  predicate OptionalText(f: Input<string>)
  {
    !f.Malformed?
  }

  predicate QuantityOk(f: Input<int>)
  {
    f.Given? && f.value >= 1
  }

  predicate UnitPriceOk(f: Input<Decimal>)
  {
    f.Given? && ValidDecimal(f.value, 10, 2)
  }

  predicate WeightOk(f: Input<Decimal>)
  {
    f.Absent? || (f.Given? && ValidDecimal(f.value, 6, 2))
  }

  /** The names of the fields that fail validation, in declaration order. */
  function InvalidFields(a: AddInput): (r: seq<string>)
    ensures r == [] <==>
      RequiredText(a.productId) && RequiredText(a.variantId) && QuantityOk(a.quantity)
      && UnitPriceOk(a.unitPrice) && OptionalText(a.productTitle) && OptionalText(a.imageUrl)
      && WeightOk(a.weight)
    ensures !QuantityOk(a.quantity) ==> "quantity" in r
  {
    (if RequiredText(a.productId) then [] else ["product_id"])
    + (if RequiredText(a.variantId) then [] else ["variant_id"])
    + (if QuantityOk(a.quantity) then [] else ["quantity"])
    + (if UnitPriceOk(a.unitPrice) then [] else ["unit_price"])
    + (if OptionalText(a.productTitle) then [] else ["product_title"])
    + (if OptionalText(a.imageUrl) then [] else ["image_url"])
    + (if WeightOk(a.weight) then [] else ["weight"])
  }

  function TextOr(f: Input<string>, default: string): string
  {
    if f.Given? then Trim(f.value) else default
  }

  /** `is_valid(raise_exception=True)` followed by the view's reads of
      `validated_data`: an absent title or image becomes "", an absent
      weight 0; text is trimmed. */
  function ValidateAdd(a: AddInput): (r: Result<AddRequest, seq<string>>)
    ensures r.Err? <==> InvalidFields(a) != []
    ensures r.Err? ==> r.error == InvalidFields(a)
    ensures r.Ok? ==>
      && r.value.productId == Trim(a.productId.value) && r.value.variantId == Trim(a.variantId.value)
      && r.value.quantity == a.quantity.value && r.value.unitPrice == Units(a.unitPrice.value, 2)
    ensures r.Ok? && a.productTitle.Given? ==> r.value.productTitle == Trim(a.productTitle.value)
    ensures r.Ok? && a.imageUrl.Given? ==> r.value.imageUrl == Trim(a.imageUrl.value)
    ensures r.Ok? && a.imageUrl.Absent? ==> r.value.imageUrl == ""
    ensures r.Ok? && a.weight.Given? ==> r.value.weight == Units(a.weight.value, 2)
    ensures r.Ok? ==> r.value.quantity >= 1
    ensures r.Ok? ==> FitsDigits(r.value.unitPrice, 10) && FitsDigits(r.value.weight, 6)
    ensures r.Ok? ==> r.value.productId != "" && r.value.variantId != ""
    ensures r.Ok? && a.weight.Absent? ==> r.value.weight == 0
    ensures r.Ok? && a.productTitle.Absent? ==> r.value.productTitle == ""
  {
    var bad := InvalidFields(a);
    if bad != [] then Err(bad)
    else
      UnitsFit(a.unitPrice.value, 10, 2);
      assert a.weight.Given? ==> FitsDigits(Units(a.weight.value, 2), 6) by {
        if a.weight.Given? { UnitsFit(a.weight.value, 6, 2); }
      }
      Ok(AddRequest(
        Trim(a.productId.value),
        Trim(a.variantId.value),
        a.quantity.value,
        Units(a.unitPrice.value, 2),
        TextOr(a.productTitle, ""),
        TextOr(a.imageUrl, ""),
        if a.weight.Given? then Units(a.weight.value, 2) else 0))
  }

  /** `CartItemSerializer`: one line item as the API returns it. */
  datatype ItemView = ItemView(
    id: nat,
    productId: string,
    variantId: string,
    productTitle: string,
    unitPrice: int,
    quantity: nat,
    totalPrice: int,
    imageUrl: string,
    weight: int)

  /** `CartSerializer`: exactly `id`, `items` and `subtotal`. */
  datatype CartView = CartView(id: nat, items: seq<ItemView>, subtotal: int)

  function ViewItem(it: CartItem): ItemView
  {
    ItemView(it.id, it.productId, it.variantId, it.title, it.unitPrice, it.quantity,
             TotalPrice(it), it.imageUrl, it.weight)
  }

  function ViewItems(items: seq<CartItem>): (r: seq<ItemView>)
    ensures |r| == |items|
    ensures forall k :: 0 <= k < |items| ==> r[k] == ViewItem(items[k])
  {
    if |items| == 0 then [] else [ViewItem(items[0])] + ViewItems(items[1..])
  }

  /** Sum of the `total_price` fields of serialized items. */
  function ViewSum(views: seq<ItemView>): int
  {
    if |views| == 0 then 0 else views[0].totalPrice + ViewSum(views[1..])
  }

  /** The serialized cart. `get_subtotal` rounds the sum to 2 decimals; every
      line total already has at most 2 decimals, so in cents the rounding is
      the identity. */
  function SerializeCart(cart: Cart, items: seq<CartItem>): CartView
  {
    CartView(cart.id, ViewItems(ItemsOf(items, cart.id)), Subtotal(items, cart.id))
  }

  /** `unit_price` and `total_price` are rendered as
      `DecimalField(max_digits=10, decimal_places=2)`: DRF quantizes each
      value with a precision of 10 digits, which raises for a value that
      needs more. */
  const PRICE_MAX_DIGITS: nat := 10

  /** Every item of cart `c` renders: its unit price and line total fit the
      rendered fields' digit bound. */
  predicate Renderable(items: seq<CartItem>, c: nat)
  {
    forall it :: it in ItemsOf(items, c) ==>
      FitsDigits(it.unitPrice, PRICE_MAX_DIGITS) && FitsDigits(TotalPrice(it), PRICE_MAX_DIGITS)
  }

  /** A cart renders exactly when every serialized item's unit price and
      total fit the digit bound. */
  lemma RenderableViews(cart: Cart, items: seq<CartItem>)
    ensures var v := SerializeCart(cart, items);
      Renderable(items, cart.id) <==>
        forall k :: 0 <= k < |v.items| ==>
          FitsDigits(v.items[k].unitPrice, PRICE_MAX_DIGITS) && FitsDigits(v.items[k].totalPrice, PRICE_MAX_DIGITS)
  {
    var rows := ItemsOf(items, cart.id);
    var v := SerializeCart(cart, items);
    if forall k :: 0 <= k < |v.items| ==>
         FitsDigits(v.items[k].unitPrice, PRICE_MAX_DIGITS) && FitsDigits(v.items[k].totalPrice, PRICE_MAX_DIGITS)
    {
      forall it | it in rows
        ensures FitsDigits(it.unitPrice, PRICE_MAX_DIGITS) && FitsDigits(TotalPrice(it), PRICE_MAX_DIGITS)
      {
        var k :| 0 <= k < |rows| && rows[k] == it;
        assert v.items[k] == ViewItem(it);
      }
    }
  }

  /** A line of 1.00 × 100000000 totals 100000000.00, which needs 11 digits:
      such a cart does not render. */
  lemma LargeLineNotRenderable(cart: Cart)
    ensures !Renderable([CartItem(0, cart.id, "p", "v", "", 100, 100000000, "", 0)], cart.id)
  {
    var it := CartItem(0, cart.id, "p", "v", "", 100, 100000000, "", 0);
    assert ItemsOf([it], cart.id) == [it];
    assert Pow10(10) == 10000000000 by {
      assert Pow10(5) == 100000;
    }
    assert it in ItemsOf([it], cart.id);
  }

  lemma {:induction false} ViewSumItems(items: seq<CartItem>)
    ensures ViewSum(ViewItems(items)) == Sum(items)
  {
    if |items| > 0 {
      assert ViewItems(items)[1..] == ViewItems(items[1..]);
      ViewSumItems(items[1..]);
    }
  }

  /** The serialized subtotal is the sum of the serialized items' line
      totals, and each of those is unit price times quantity; a cart with no
      items reports 0. */
  lemma SerializedSubtotal(cart: Cart, items: seq<CartItem>)
    ensures var v := SerializeCart(cart, items);
      && v.id == cart.id
      && v.subtotal == ViewSum(v.items)
      && (forall k :: 0 <= k < |v.items| ==> v.items[k].totalPrice == v.items[k].unitPrice * v.items[k].quantity)
      && (v.items == [] ==> v.subtotal == 0)
  {
    ViewSumItems(ItemsOf(items, cart.id));
  }
}

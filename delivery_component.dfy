/** The delivery page (frontend/src/app/delivery/delivery.component.ts): it
    loads the cart, computes its total weight, asks the delivery endpoint
    for options at that weight, and adds the fees of the selected mode to
    the subtotal. Money is integer cents, weight hundredths of a kilogram.
    Requests and alerts are recorded in the order they happen. */
module DeliveryComponent {
  import opened Common
  import opened CartComponent

  /** One entry of the `options` list the delivery endpoint returns. */
  datatype DeliveryOption = DeliveryOption(mode: string, labelText: string, fees: int)

  /** What `confirmDelivery` shows: the request to choose first (the text
      CHOOSE_FIRST_TEXT), or the summary. A selection no option has gives no label and no fees. */
  datatype Alert =
    | ChooseFirst
    | Summary(labelText: Option<string>, subtotal: int, weight: int, fees: Option<int>, total: int)

  const CHOOSE_FIRST_TEXT: string := "❌ Veuillez sélectionner un mode de livraison !"

  /** The `reduce` over the items: weight times quantity, summed from the
      first item to the last. */
  function TotalWeight(items: seq<CartItem>): int
  {
    if |items| == 0 then 0
    else TotalWeight(items[..|items| - 1]) + items[|items| - 1].weight * items[|items| - 1].quantity
  }

  /** The total weight of a cart is the sum over any split of its items. */
  lemma {:induction false} TotalWeightAppend(a: seq<CartItem>, b: seq<CartItem>)
    ensures TotalWeight(a + b) == TotalWeight(a) + TotalWeight(b)
    decreases |b|
  {
    if |b| == 0 {
      assert a + b == a;
    } else {
      var b0 := b[..|b| - 1];
      TotalWeightAppend(a, b0);
      assert (a + b)[..|a + b| - 1] == a + b0;
    }
  }

  /** An empty cart weighs nothing, and a cart whose weights and quantities
      are not negative weighs at least as much as each of its lines. */
  lemma {:induction false} TotalWeightBounds(items: seq<CartItem>)
    requires forall i :: 0 <= i < |items| ==> items[i].weight >= 0 && items[i].quantity >= 0
    ensures TotalWeight(items) >= 0
    ensures forall i :: 0 <= i < |items| ==> TotalWeight(items) >= items[i].weight * items[i].quantity
  {
    if |items| > 0 {
      var init := items[..|items| - 1];
      TotalWeightBounds(init);
      var last := items[|items| - 1];
      assert last.weight * last.quantity >= 0;
      forall i | 0 <= i < |items| ensures TotalWeight(items) >= items[i].weight * items[i].quantity {
        if i < |items| - 1 {
          assert items[i] == init[i];
        }
      }
    }
  }

  /** `o.mode === this.selectedDelivery`: a missing selection matches no mode. */
  predicate Matches(o: DeliveryOption, selected: Option<string>)
  {
    selected.Some? && o.mode == selected.value
  }

  /** `deliveryOptions.find(...)`: the first option whose mode is selected. */
  function Chosen(options: seq<DeliveryOption>, selected: Option<string>): (r: Option<DeliveryOption>)
    ensures r.None? <==> forall i :: 0 <= i < |options| ==> !Matches(options[i], selected)
    ensures r.Some? ==> exists i :: 0 <= i < |options| && options[i] == r.value && Matches(r.value, selected) &&
                          forall j :: 0 <= j < i ==> !Matches(options[j], selected)
  {
    if |options| == 0 then None
    else if Matches(options[0], selected) then Some(options[0])
    else
      var r := Chosen(options[1..], selected);
      assert forall i :: 0 < i < |options| ==> options[i] == options[1..][i - 1];
      if r.Some? then
        var i :| 0 <= i < |options[1..]| && options[1..][i] == r.value && Matches(r.value, selected) &&
                 forall j :: 0 <= j < i ==> !Matches(options[1..][j], selected);
        assert options[i + 1] == r.value;
        r
      else r
  }

  /** `getSelectedFees`: the chosen option's fees, 0 when none matches. */
  function SelectedFees(options: seq<DeliveryOption>, selected: Option<string>): (r: int)
    ensures Chosen(options, selected).None? ==> r == 0
    ensures Chosen(options, selected).Some? ==> r == Chosen(options, selected).value.fees
  {
    match Chosen(options, selected)
    case None => 0
    case Some(o) => o.fees
  }

  /** `getTotal`. */
  function Total(subtotal: int, options: seq<DeliveryOption>, selected: Option<string>): int
  {
    subtotal + SelectedFees(options, selected)
  }

  /** With no selection, or one no option offers, the total is the subtotal;
      otherwise the fees of the first option of the selected mode are added. */
  lemma TotalCases(subtotal: int, options: seq<DeliveryOption>, selected: Option<string>)
    ensures selected.None? ==> Total(subtotal, options, selected) == subtotal
    ensures (forall i :: 0 <= i < |options| ==> !Matches(options[i], selected)) ==> Total(subtotal, options, selected) == subtotal
    ensures forall i :: (0 <= i < |options| && Matches(options[i], selected) &&
                         forall j :: 0 <= j < i ==> !Matches(options[j], selected)) ==>
               Total(subtotal, options, selected) == subtotal + options[i].fees
  {
    forall i | 0 <= i < |options| && Matches(options[i], selected) && forall j :: 0 <= j < i ==> !Matches(options[j], selected)
      ensures Total(subtotal, options, selected) == subtotal + options[i].fees
    {
      var c := Chosen(options, selected).value;
      var k :| 0 <= k < |options| && options[k] == c && Matches(c, selected) &&
               forall j :: 0 <= j < k ==> !Matches(options[j], selected);
      assert k == i;
    }
  }

  /** `!this.selectedDelivery`: null and the empty string are falsy. */
  predicate HasSelection(selected: Option<string>)
  {
    selected.Some? && selected.value != ""
  }

  class DeliveryPage {
    var items: seq<CartItem>
    var subtotal: int
    var totalWeight: int
    var selected: Option<string>
    var options: seq<DeliveryOption>
    /** Weights passed to the options request, oldest first. */
    var optionRequests: seq<int>
    var alerts: seq<Alert>

    constructor ()
      ensures items == [] && subtotal == 0 && totalWeight == 0 && selected.None? && options == []
      ensures optionRequests == [] && alerts == []
    {
      items := [];
      subtotal := 0;
      totalWeight := 0;
      selected := None;
      options := [];
      optionRequests := [];
      alerts := [];
    }

    /** The reply to `getCart()` in `loadCartAndDelivery`. A failed request
        changes nothing. A reply sets the items and subtotal (missing ones
        default to an empty list and 0), their total weight, and requests
        the options for exactly that weight. */
    method LoadCart(reply: Option<CartResponse>)
      modifies this
      ensures selected == old(selected) && options == old(options) && alerts == old(alerts)
      ensures reply.None? ==> items == old(items) && subtotal == old(subtotal) && totalWeight == old(totalWeight)
                              && optionRequests == old(optionRequests)
      ensures reply.Some? ==> && items == ItemsOf(reply.value) && subtotal == SubtotalOf(reply.value)
                              && totalWeight == TotalWeight(items)
                              && optionRequests == old(optionRequests) + [TotalWeight(items)]
    {
      if reply.Some? {
        items := ItemsOf(reply.value);
        subtotal := SubtotalOf(reply.value);
        totalWeight := TotalWeight(items);
        optionRequests := optionRequests + [totalWeight];
      }
    }

    /** The reply to the options request: `data.options ?? []`; a failed
        request changes nothing. */
    method LoadOptions(reply: Option<Option<seq<DeliveryOption>>>)
      modifies this
      ensures reply.None? ==> options == old(options)
      ensures reply.Some? && reply.value.None? ==> options == []
      ensures reply.Some? && reply.value.Some? ==> options == reply.value.value
      ensures items == old(items) && subtotal == old(subtotal) && totalWeight == old(totalWeight)
      ensures selected == old(selected) && optionRequests == old(optionRequests) && alerts == old(alerts)
    {
      if reply.Some? {
        options := if reply.value.Some? then reply.value.value else [];
      }
    }

    /** The mode the user picks in the form. */
    method Select(mode: Option<string>)
      modifies this
      ensures selected == mode
      ensures items == old(items) && subtotal == old(subtotal) && totalWeight == old(totalWeight)
      ensures options == old(options) && optionRequests == old(optionRequests) && alerts == old(alerts)
    {
      selected := mode;
    }

    /** `confirmDelivery`: with no selection it only asks to choose one;
        otherwise it shows the chosen option, the subtotal, the weight, the
        fees and the total. Nothing else changes. */
    method ConfirmDelivery()
      modifies this
      ensures !HasSelection(selected) ==> alerts == old(alerts) + [ChooseFirst]
      ensures HasSelection(selected) ==>
        var c := Chosen(options, selected);
        alerts == old(alerts) + [Summary(if c.Some? then Some(c.value.labelText) else None, subtotal, totalWeight,
                                         if c.Some? then Some(c.value.fees) else None, Total(subtotal, options, selected))]
      ensures items == old(items) && subtotal == old(subtotal) && totalWeight == old(totalWeight)
      ensures selected == old(selected) && options == old(options) && optionRequests == old(optionRequests)
    {
      if !HasSelection(selected) {
        alerts := alerts + [ChooseFirst];
        return;
      }
      var c := Chosen(options, selected);
      var labelText := if c.Some? then Some(c.value.labelText) else None;
      var fees := if c.Some? then Some(c.value.fees) else None;
      alerts := alerts + [Summary(labelText, subtotal, totalWeight, fees, Total(subtotal, options, selected))];
    }
  }
}

/** The delivery-choice endpoints (backend/deliveries/views.py): choosing or
    changing an order's delivery mode and fees, which also recomputes the
    order's total; listing the caller's choices; reading and deleting one.
    None of them checks that the order belongs to the caller. */
module DeliveryViews {
  import opened Common
  import opened Tables
  import opened CartModels
  import opened OrderModels
  import opened DeliveryModels
  import opened UserModels
  import opened Db

  /** `mode` column length (`max_length=50`); PostgreSQL refuses a longer
      value. */
  const MODE_MAX_LENGTH: nat := 50

  /** The choice table after `update_or_create(order=order, defaults={"mode":
      mode, "fees": fees})`. */
  function UpsertChoice(choices: seq<DeliveryChoice>, next: nat, order: nat, mode: string, fees: int): seq<DeliveryChoice>
  {
    match Find(choices, ChoiceOrder, order)
    case Some(j) => choices[j := choices[j].(mode := mode, fees := fees)]
    case None => choices + [DeliveryChoice(next, order, mode, fees)]
  }

  /** The next choice id after the upsert: only a creation uses one. */
  function NextChoice(choices: seq<DeliveryChoice>, next: nat, order: nat): nat
  {
    if Find(choices, ChoiceOrder, order).Some? then next else next + 1
  }

  /** The upsert keeps the choice table consistent and leaves exactly one
      choice for the order. */
  lemma UpsertChoiceOk(orderIds: set<nat>, choices: seq<DeliveryChoice>, next: nat, order: nat, mode: string, fees: int)
    requires ChoicesOk(orderIds, choices, next) && order in orderIds
    ensures var r := UpsertChoice(choices, next, order, mode, fees);
      ChoicesOk(orderIds, r, NextChoice(choices, next, order)) && Count(r, ChoiceOrder, order) == 1
  {
    var r := UpsertChoice(choices, next, order, mode, fees);
    match Find(choices, ChoiceOrder, order)
    case Some(j) =>
      var x := choices[j].(mode := mode, fees := fees);
      DistinctUpdate(choices, j, x, ChoiceId);
      DistinctUpdate(choices, j, x, ChoiceOrder);
      CountDistinct(r, ChoiceOrder, order);
      assert r[j] in r;
    case None =>
      var x := DeliveryChoice(next, order, mode, fees);
      DistinctAppend(choices, x, ChoiceId);
      DistinctAppend(choices, x, ChoiceOrder);
      CountAppend(choices, x, ChoiceOrder, order);
  }

  /** After the upsert the order's choice carries the new mode and fees,
      and no other order's choice is touched. */
  lemma UpsertChoiceContent(choices: seq<DeliveryChoice>, next: nat, order: nat, mode: string, fees: int)
    requires Distinct(choices, ChoiceOrder)
    ensures var r := UpsertChoice(choices, next, order, mode, fees);
      && (forall d :: d in r && d.order == order ==> d.mode == mode && d.fees == fees)
      && (forall d: DeliveryChoice :: d.order != order ==> (d in r <==> d in choices))
  {
    var r := UpsertChoice(choices, next, order, mode, fees);
    match Find(choices, ChoiceOrder, order)
    case Some(j) =>
      var x := choices[j].(mode := mode, fees := fees);
      DistinctUpdate(choices, j, x, ChoiceOrder);
      forall d | d in r && d.order == order ensures d == x {
        var k :| 0 <= k < |r| && r[k] == d;
        FindUnique(r, ChoiceOrder, order, k);
        FindUnique(r, ChoiceOrder, order, j);
      }
      forall d: DeliveryChoice | d.order != order ensures d in r <==> d in choices {
        if d in r {
          var k :| 0 <= k < |r| && r[k] == d;
          assert choices[k] == d;
        }
        if d in choices {
          var k :| 0 <= k < |choices| && choices[k] == d;
          assert r[k] == d;
        }
      }
    case None =>
  }

  /** Changing one order's total keeps the order table consistent. */
  lemma RetotalOk(userIds: set<nat>, cartIds: set<nat>, orders: seq<Order>, next: nat, i: nat, total: int)
    requires OrdersOk(userIds, cartIds, orders, next) && i < |orders|
    ensures OrdersOk(userIds, cartIds, orders[i := orders[i].(totalPrice := total)], next)
    ensures KeySet(orders[i := orders[i].(totalPrice := total)], OrderId) == KeySet(orders, OrderId)
  {
    var o1 := orders[i].(totalPrice := total);
    var orders1 := orders[i := o1];
    DistinctUpdate(orders, i, o1, OrderId);
    DistinctUpdate(orders, i, o1, OrderCart);
    forall x | x in orders1 ensures x.cart in cartIds && x.user in userIds {
      var k :| 0 <= k < |orders1| && orders1[k] == x;
      assert orders[k] in orders;
    }
  }

  /** The store after `DeliveryChoiceView.post` succeeds for the order at
      index `i`: the upsert, then `total_price := cart.subtotal + fees`. */
  function ChooseDelivery(s: Store, i: nat, mode: string, fees: int): (r: Store)
    requires i < |s.orders|
    ensures r.(orders := s.orders, choices := s.choices, nextChoiceId := s.nextChoiceId) == s
    ensures |r.orders| == |s.orders|
    ensures forall j :: 0 <= j < |s.orders| && j != i ==> r.orders[j] == s.orders[j]
    ensures r.orders[i].(totalPrice := s.orders[i].totalPrice) == s.orders[i]
    ensures r.orders[i].totalPrice == Subtotal(s.items, s.orders[i].cart) + fees
  {
    var o := s.orders[i];
    s.(orders := s.orders[i := o.(totalPrice := Subtotal(s.items, o.cart) + fees)],
       choices := UpsertChoice(s.choices, s.nextChoiceId, o.id, mode, fees),
       nextChoiceId := NextChoice(s.choices, s.nextChoiceId, o.id))
  }

  /** Choosing a delivery keeps the store consistent: the order keeps its
      id, user and cart, and still has at most one choice. */
  lemma ChooseDeliveryOk(s: Store, i: nat, mode: string, fees: int)
    requires StoreOk(s) && i < |s.orders|
    ensures StoreOk(ChooseDelivery(s, i, mode, fees))
    ensures Count(ChooseDelivery(s, i, mode, fees).choices, ChoiceOrder, s.orders[i].id) == 1
  {
    var o := s.orders[i];
    var orders1 := s.orders[i := o.(totalPrice := Subtotal(s.items, o.cart) + fees)];
    var choices1 := UpsertChoice(s.choices, s.nextChoiceId, o.id, mode, fees);
    var next1 := NextChoice(s.choices, s.nextChoiceId, o.id);
    RetotalOk(KeySet(s.users, UserId), KeySet(s.carts, CartId), s.orders, s.nextOrderId, i,
              Subtotal(s.items, o.cart) + fees);
    assert o in s.orders;
    UpsertChoiceOk(KeySet(s.orders, OrderId), s.choices, s.nextChoiceId, o.id, mode, fees);
    WithOrdersOk(s, orders1, s.nextOrderId, choices1, next1);
    assert ChooseDelivery(s, i, mode, fees)
      == s.(orders := orders1, nextOrderId := s.nextOrderId, choices := choices1, nextChoiceId := next1);
  }

  /** A second choice replaces the first one: the order's total is the
      subtotal plus the latest fees only, never the sum of both fees, and
      the choice keeps its id. */
  lemma ChooseDeliveryLastWins(s: Store, i: nat, m1: string, f1: int, m2: string, f2: int)
    requires i < |s.orders| && Distinct(s.choices, ChoiceOrder)
    ensures ChooseDelivery(ChooseDelivery(s, i, m1, f1), i, m2, f2) == ChooseDelivery(s, i, m2, f2)
  {
    var o := s.orders[i];
    var s1 := ChooseDelivery(s, i, m1, f1);
    assert s1.orders[i].id == o.id && s1.orders[i].cart == o.cart;
    UpsertTwice(s.choices, s.nextChoiceId, o.id, m1, f1, m2, f2);
  }

  /** A second upsert for the same order overwrites the first one. */
  lemma UpsertTwice(choices: seq<DeliveryChoice>, next: nat, order: nat, m1: string, f1: int, m2: string, f2: int)
    requires Distinct(choices, ChoiceOrder)
    ensures var c1 := UpsertChoice(choices, next, order, m1, f1);
      var n1 := NextChoice(choices, next, order);
      && UpsertChoice(c1, n1, order, m2, f2) == UpsertChoice(choices, next, order, m2, f2)
      && NextChoice(c1, n1, order) == n1
  {
    var c1 := UpsertChoice(choices, next, order, m1, f1);
    match Find(choices, ChoiceOrder, order)
    case Some(j) =>
      var x := choices[j].(mode := m1, fees := f1);
      DistinctUpdate(choices, j, x, ChoiceOrder);
      FindUnique(c1, ChoiceOrder, order, j);
      assert c1[j := x.(mode := m2, fees := f2)] == choices[j := choices[j].(mode := m2, fees := f2)];
    case None =>
      var x := DeliveryChoice(next, order, m1, f1);
      DistinctAppend(choices, x, ChoiceOrder);
      FindUnique(c1, ChoiceOrder, order, |choices|);
      assert c1[|choices| := x.(mode := m2, fees := f2)] == choices + [DeliveryChoice(next, order, m2, f2)];
  }

  /** The choice the endpoint returns: the order's one choice. */
  function ChoiceOf(choices: seq<DeliveryChoice>, order: nat): (d: Option<DeliveryChoice>)
    ensures d.None? <==> order !in KeySet(choices, ChoiceOrder)
    ensures d.Some? ==> d.value in choices && d.value.order == order
  {
    match Find(choices, ChoiceOrder, order)
    case None => None
    case Some(j) => Some(choices[j])
  }

  /** `DeliveryChoiceView.post`. `orderId` is Absent when `order` is missing
      or null and Malformed when the id lookup cannot convert it; `fees` is
      Absent when missing (it then defaults to 0.00) and Malformed when it
      is null or not a decimal. A missing or over-long `mode` makes the
      upsert fail, and nothing is written. */
  method PostDeliveryChoice(db: Database, orderId: Input<int>, mode: Option<string>, fees: Input<int>)
    returns (status: int, choice: Option<DeliveryChoice>)
    requires db.Valid()
    modifies db
    ensures db.Valid()
    ensures orderId.Malformed? ==> status == SERVER_ERROR && choice.None? && db.state == old(db.state)
    ensures orderId.Absent? || (orderId.Given? && (orderId.value < 0 || orderId.value as nat !in KeySet(old(db.state).orders, OrderId))) ==>
      status == NOT_FOUND && choice.None? && db.state == old(db.state)
    ensures orderId.Given? && orderId.value >= 0 && orderId.value as nat in KeySet(old(db.state).orders, OrderId) ==>
      var i := Find(old(db.state).orders, OrderId, orderId.value as nat).value;
      && ((mode.None? || |mode.value| > MODE_MAX_LENGTH || fees.Malformed?) ==>
            status == SERVER_ERROR && choice.None? && db.state == old(db.state))
      && ((mode.Some? && |mode.value| <= MODE_MAX_LENGTH && !fees.Malformed?) ==>
            var f := if fees.Given? then fees.value else DEFAULT_FEES;
            && status == OK
            && db.state == ChooseDelivery(old(db.state), i, mode.value, f)
            && choice.Some? && choice.value in db.state.choices
            && choice.value.order == orderId.value && choice.value.mode == mode.value && choice.value.fees == f)
  {
    if orderId.Malformed? {
      return SERVER_ERROR, None;
    }
    if orderId.Absent? || orderId.value < 0 {
      return NOT_FOUND, None;
    }
    var s := db.state;
    var found := Find(s.orders, OrderId, orderId.value as nat);
    if found.None? {
      return NOT_FOUND, None;
    }
    if mode.None? || |mode.value| > MODE_MAX_LENGTH || fees.Malformed? {
      return SERVER_ERROR, None;
    }
    var f := if fees.Given? then fees.value else DEFAULT_FEES;
    var i := found.value;
    ChooseDeliveryOk(s, i, mode.value, f);
    UpsertChoiceContent(s.choices, s.nextChoiceId, s.orders[i].id, mode.value, f);
    db.state := ChooseDelivery(s, i, mode.value, f);
    choice := ChoiceOf(db.state.choices, s.orders[i].id);
    assert s.orders[i].id in KeySet(db.state.choices, ChoiceOrder);
    return OK, choice;
  }

  /** `ListDeliveryChoicesView`: the choices whose order belongs to `u`, in
      table order. */
  function ChoicesOfUser(orders: seq<Order>, choices: seq<DeliveryChoice>, u: nat): (r: seq<DeliveryChoice>)
    ensures forall d :: d in r <==> d in choices && exists o :: o in orders && o.user == u && o.id == d.order
  {
    var mine := set o | o in orders && o.user == u :: o.id;
    Filter(choices, (d: DeliveryChoice) => d.order in mine)
  }

  /** `DeliveryChoiceDetailView`: any choice by primary key. */
  function ChoiceDetail(s: Store, id: nat): (r: Option<DeliveryChoice>)
    ensures r.None? <==> id !in KeySet(s.choices, ChoiceId)
    ensures r.Some? ==> r.value in s.choices && r.value.id == id
  {
    match Find(s.choices, ChoiceId, id)
    case None => None
    case Some(j) => Some(s.choices[j])
  }

  /** The store after the choice at index `j` is deleted. */
  function RemoveChoice(s: Store, j: nat): (r: Store)
    requires j < |s.choices|
    ensures r.(choices := s.choices) == s
    ensures StoreOk(s) ==> StoreOk(r)
    ensures StoreOk(s) ==> forall d :: d in r.choices <==> d in s.choices && d.id != s.choices[j].id
  {
    var r := s.(choices := RemoveAt(s.choices, j));
    assert StoreOk(s) ==> StoreOk(r) by {
      if StoreOk(s) {
        DistinctRemoveAt(s.choices, j, ChoiceId);
        DistinctRemoveAt(s.choices, j, ChoiceOrder);
        KeySetRemoveAt(s.choices, j, ChoiceId);
      }
    }
    assert StoreOk(s) ==> forall d :: d in r.choices <==> d in s.choices && d.id != s.choices[j].id by {
      if StoreOk(s) {
        RemovedRow(s.choices, j);
      }
    }
    r
  }

  /** The rows left by `RemoveAt` are the others, when ids are unique. */
  lemma RemovedRow(choices: seq<DeliveryChoice>, j: nat)
    requires j < |choices| && Distinct(choices, ChoiceId)
    ensures forall d :: d in RemoveAt(choices, j) <==> d in choices && d.id != choices[j].id
  {
    var r := RemoveAt(choices, j);
    forall d | d in r ensures d in choices && d.id != choices[j].id {
      var k :| 0 <= k < |r| && r[k] == d;
      if k < j { assert d == choices[k]; } else { assert d == choices[k + 1]; }
    }
    forall d | d in choices && d.id != choices[j].id ensures d in r {
      var k :| 0 <= k < |choices| && choices[k] == d;
      if k < j { assert r[k] == d; } else if k > j { assert r[k - 1] == d; }
    }
  }

  /** `DeleteDeliveryChoiceView`: deletes any choice by primary key. The
      order's total is left as it is, fees included. */
  method DeleteChoice(db: Database, id: nat) returns (status: int)
    requires db.Valid()
    modifies db
    ensures db.Valid()
    ensures id !in KeySet(old(db.state).choices, ChoiceId) ==> status == NOT_FOUND && db.state == old(db.state)
    ensures id in KeySet(old(db.state).choices, ChoiceId) ==>
      && status == NO_CONTENT
      && db.state.(choices := old(db.state).choices) == old(db.state)
      && forall d :: d in db.state.choices <==> d in old(db.state).choices && d.id != id
  {
    var s := db.state;
    var found := Find(s.choices, ChoiceId, id);
    if found.None? {
      return NOT_FOUND;
    }
    db.state := RemoveChoice(s, found.value);
    return NO_CONTENT;
  }
}

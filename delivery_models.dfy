/** The delivery-choice table (backend/deliveries/models.py): at most one
    choice per order, a mode and fees in cents. */
module DeliveryModels {
  import opened Tables

  datatype DeliveryChoice = DeliveryChoice(id: nat, order: nat, mode: string, fees: int)

  /** The declared `MODE_CHOICES`. The table does not enforce them. */
  const MODE_CHOICES: seq<string> := ["RETRAIT", "COLISSIMO", "MONDIAL_RELAY"]

  /** `fees` default 0.00. */
  const DEFAULT_FEES: int := 0

  predicate DeclaredMode(m: string)
  {
    m in MODE_CHOICES
  }

  function ChoiceId(d: DeliveryChoice): nat { d.id }
  /** The one-to-one `order` column: unique across choices. */
  function ChoiceOrder(d: DeliveryChoice): nat { d.order }

  /** Cascade of deleting the orders whose ids are in `gone`. */
  function RemainingChoices(choices: seq<DeliveryChoice>, gone: set<nat>): (r: seq<DeliveryChoice>)
    ensures |r| <= |choices|
    ensures forall d :: d in r <==> d in choices && d.order !in gone
    ensures Distinct(choices, ChoiceId) ==> Distinct(r, ChoiceId)
    ensures Distinct(choices, ChoiceOrder) ==> Distinct(r, ChoiceOrder)
  {
    var keep := (d: DeliveryChoice) => d.order !in gone;
    assert Distinct(choices, ChoiceId) ==> Distinct(Filter(choices, keep), ChoiceId) by {
      if Distinct(choices, ChoiceId) { FilterDistinct(choices, keep, ChoiceId); }
    }
    assert Distinct(choices, ChoiceOrder) ==> Distinct(Filter(choices, keep), ChoiceOrder) by {
      if Distinct(choices, ChoiceOrder) { FilterDistinct(choices, keep, ChoiceOrder); }
    }
    Filter(choices, keep)
  }
}

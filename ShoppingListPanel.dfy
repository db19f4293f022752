/** The shopping-list panel: the totals under the open list and the
    quantity buttons of a line. */
module ShoppingListPanel {
  import opened Common
  import opened Types
  import ShoppingList
  import PlanStore

  /** What one line adds to the totals: its plan's price and serving count
      times its quantity, nothing when the plan is not among the loaded
      plans. `priceDiscount || 0` and `servingsMax || servingsMin || 0` are
      the price and `TopServings`, as a missing number is 0 here. */
  function LinePrice(item: ShoppingList.Item, plans: seq<Plan>): int {
    var p := PlanStore.FindPlan(plans, item.planId);
    if p.Some? then p.value.priceDiscount * item.quantity else 0
  }

  function LineServings(item: ShoppingList.Item, plans: seq<Plan>): int {
    var p := PlanStore.FindPlan(plans, item.planId);
    if p.Some? then TopServings(p.value) * item.quantity else 0
  }

  /** The sums over the lines, from the back. */
  function TotalPrice(items: seq<ShoppingList.Item>, plans: seq<Plan>): int {
    if items == [] then 0 else TotalPrice(items[..|items| - 1], plans) + LinePrice(items[|items| - 1], plans)
  }

  function TotalServings(items: seq<ShoppingList.Item>, plans: seq<Plan>): int {
    if items == [] then 0 else TotalServings(items[..|items| - 1], plans) + LineServings(items[|items| - 1], plans)
  }

  /** `calculateStats()`: zeros without an open list; otherwise the price
      and serving totals over the lines whose plan is loaded, and the number
      of lines, counting those whose plan is missing. */
  method CalculateStats(currentList: Option<ShoppingList.List>, plans: seq<Plan>)
    returns (totalPrice: int, totalServings: int, itemCount: nat)
    ensures currentList.None? ==> totalPrice == 0 && totalServings == 0 && itemCount == 0
    ensures currentList.Some? ==>
              totalPrice == TotalPrice(currentList.value.items, plans)
              && totalServings == TotalServings(currentList.value.items, plans)
              && itemCount == |currentList.value.items|
  {
    if currentList.None? {
      return 0, 0, 0;
    }
    var items := currentList.value.items;
    totalPrice, totalServings := 0, 0;
    var i := 0;
    while i < |items|
      invariant 0 <= i <= |items|
      invariant totalPrice == TotalPrice(items[..i], plans)
      invariant totalServings == TotalServings(items[..i], plans)
    {
      var plan := PlanStore.FindPlan(plans, items[i].planId);
      assert items[..i + 1][..i] == items[..i];
      if plan.Some? {
        totalPrice := totalPrice + plan.value.priceDiscount * items[i].quantity;
        totalServings := totalServings + TopServings(plan.value) * items[i].quantity;
      }
      i := i + 1;
    }
    assert items[..i] == items;
    itemCount := |items|;
  }

  /** The totals split over a split list. */
  lemma {:induction false} Totals_Append(a: seq<ShoppingList.Item>, b: seq<ShoppingList.Item>, plans: seq<Plan>)
    ensures TotalPrice(a + b, plans) == TotalPrice(a, plans) + TotalPrice(b, plans)
    ensures TotalServings(a + b, plans) == TotalServings(a, plans) + TotalServings(b, plans)
    decreases |b|
  {
    if b == [] {
      assert a + b == a;
    } else {
      var init := b[..|b| - 1];
      assert (a + b)[..|a + b| - 1] == a + init;
      assert (a + b)[|a + b| - 1] == b[|b| - 1];
      Totals_Append(a, init, plans);
    }
  }

  /** A line whose plan is not loaded changes no total, wherever it is. */
  lemma Totals_SkipMissing(a: seq<ShoppingList.Item>, x: ShoppingList.Item, b: seq<ShoppingList.Item>, plans: seq<Plan>)
    requires PlanStore.FindPlan(plans, x.planId).None?
    ensures TotalPrice(a + [x] + b, plans) == TotalPrice(a + b, plans)
    ensures TotalServings(a + [x] + b, plans) == TotalServings(a + b, plans)
  {
    Totals_Single(x, plans);
    Totals_Append(a + [x], b, plans);
    Totals_Append(a, [x], plans);
    Totals_Append(a, b, plans);
  }

  /** A one-line list totals that line. */
  lemma Totals_Single(x: ShoppingList.Item, plans: seq<Plan>)
    ensures TotalPrice([x], plans) == LinePrice(x, plans)
    ensures TotalServings([x], plans) == LineServings(x, plans)
  {
    assert [x][..0] == [];
  }

  /** With non-negative prices, serving counts and quantities the totals
      are non-negative, and a list none of whose plans is loaded totals 0. */
  lemma {:induction false} Totals_NonNegative(items: seq<ShoppingList.Item>, plans: seq<Plan>)
    requires forall i :: 0 <= i < |plans| ==> plans[i].priceDiscount >= 0 && TopServings(plans[i]) >= 0
    requires forall i :: 0 <= i < |items| ==> items[i].quantity >= 0
    ensures TotalPrice(items, plans) >= 0 && TotalServings(items, plans) >= 0
    ensures (forall i, j :: 0 <= i < |items| && 0 <= j < |plans| ==> plans[j].id != items[i].planId)
              ==> TotalPrice(items, plans) == 0 && TotalServings(items, plans) == 0
  {
    if items != [] {
      var init := items[..|items| - 1];
      Totals_NonNegative(init, plans);
      var x := items[|items| - 1];
      var p := PlanStore.FindPlan(plans, x.planId);
      if p.Some? {
        var k :| 0 <= k < |plans| && plans[k] == p.value;
        assert p.value.priceDiscount * x.quantity >= 0;
        assert TopServings(p.value) * x.quantity >= 0;
      }
    }
  }

  /** The '−' button: one less, never below 1. */
  function Decrement(quantity: int): (r: int)
    ensures r >= 1
    ensures quantity > 1 ==> r == quantity - 1
    ensures quantity <= 1 ==> r == 1
  {
    Max(1, quantity - 1)
  }

  /** The '+' button: one more. */
  function Increment(quantity: int): (r: int)
    ensures r == quantity + 1
  {
    quantity + 1
  }

  /** '−' undoes '+' on every valid quantity, and '+' undoes '−' above 1. */
  lemma Increment_Decrement(quantity: int)
    requires quantity >= 1
    ensures Decrement(Increment(quantity)) == quantity
    ensures quantity > 1 ==> Increment(Decrement(quantity)) == quantity
    ensures Decrement(quantity) <= quantity
  {
  }
}

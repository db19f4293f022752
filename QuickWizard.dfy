/** The seven-question wizard of the catalogue page: the step machine, the
    recommendation run over the store's plans and the filters it applies.
    Answers are kept as the component keeps them, a record from question id
    to the chosen option's value. */
module QuickWizard {
  import opened Common
  import opened Types
  import PlanStore
  import Sorting
  import UiFilters

  /** The questions, in order. */
  const StepIds: seq<string> := ["scenario", "people", "budget", "style", "delivery", "region", "priority"]
  const StepCount := |StepIds|

  // ------------------------------------------------------------ step machine

  /** What answering or skipping does: the next question, or the result
      page after the last one. */
  function Advance(step: int, showResult: bool): (r: (int, bool))
    ensures 0 <= step < StepCount ==> 0 <= r.0 < StepCount
    ensures r.1 <==> showResult || step >= StepCount - 1
    ensures r.0 == (if step < StepCount - 1 then step + 1 else step)
  {
    if step < StepCount - 1 then (step + 1, showResult) else (step, true)
  }

  /** `handleBack()`: the previous question, never before the first. */
  function Back(step: int): (r: int)
    ensures 0 <= step < StepCount ==> 0 <= r < StepCount
    ensures r == (if step > 0 then step - 1 else step)
  {
    if step > 0 then step - 1 else step
  }

  /** The wizard's position after `n` answers or skips from the start. */
  function AdvanceN(n: nat): (int, bool) {
    if n == 0 then (0, false) else Advance(AdvanceN(n - 1).0, AdvanceN(n - 1).1)
  }

  /** The result page appears exactly from the seventh answer on, and the
      wizard then rests on the last question. */
  lemma {:induction false} AdvanceN_Result(n: nat)
    ensures AdvanceN(n) == (Min(n, StepCount - 1), n >= StepCount)
  {
    if n > 0 {
      AdvanceN_Result(n - 1);
    }
  }

  class Wizard {
    var isOpen: bool
    var currentStep: int
    var selections: map<string, string>
    var showResult: bool

    /** The step always names one of the questions. */
    predicate Valid()
      reads this
    {
      0 <= currentStep < StepCount
    }

    constructor()
      ensures Valid()
      ensures !isOpen && currentStep == 0 && selections == map[] && !showResult
    {
      isOpen := false;
      currentStep := 0;
      selections := map[];
      showResult := false;
    }

    method Open()
      modifies this
      ensures isOpen && currentStep == old(currentStep) && selections == old(selections) && showResult == old(showResult)
    {
      isOpen := true;
    }

    /** `handleSelect(stepId, value)`: records the answer and moves on. */
    method HandleSelect(stepId: string, value: string)
      requires Valid()
      modifies this
      ensures Valid()
      ensures selections == old(selections)[stepId := value]
      ensures (currentStep, showResult) == Advance(old(currentStep), old(showResult))
      ensures isOpen == old(isOpen)
    {
      selections := selections[stepId := value];
      if currentStep < StepCount - 1 {
        currentStep := currentStep + 1;
      } else {
        showResult := true;
      }
    }

    /** `handleSkip()`: moves on without an answer. */
    method HandleSkip()
      requires Valid()
      modifies this
      ensures Valid()
      ensures (currentStep, showResult) == Advance(old(currentStep), old(showResult))
      ensures selections == old(selections) && isOpen == old(isOpen)
    {
      if currentStep < StepCount - 1 {
        currentStep := currentStep + 1;
      } else {
        showResult := true;
      }
    }

    /** `handleBack()`. */
    method HandleBack()
      requires Valid()
      modifies this
      ensures Valid()
      ensures currentStep == Back(old(currentStep))
      ensures selections == old(selections) && showResult == old(showResult) && isOpen == old(isOpen)
    {
      if currentStep > 0 {
        currentStep := currentStep - 1;
      }
    }

    /** `handleReset()`: back to the first question with no answers. */
    method HandleReset()
      modifies this
      ensures Valid()
      ensures currentStep == 0 && selections == map[] && !showResult && isOpen == old(isOpen)
    {
      currentStep := 0;
      selections := map[];
      showResult := false;
    }

    /** `handleClose()`: closed, and reset as by `handleReset`. */
    method HandleClose()
      modifies this
      ensures Valid()
      ensures !isOpen && currentStep == 0 && selections == map[] && !showResult
    {
      isOpen := false;
      currentStep := 0;
      selections := map[];
      showResult := false;
    }

    /** The `recommendations` memo: nothing until the result page shows. */
    method Recommendations(plans: seq<Plan>) returns (r: Option<Recommendation>)
      ensures r.None? <==> !showResult
      ensures r.Some? ==> r.value.total == |Matching(selections, plans)|
      ensures r.Some? ==> forall p :: p in r.value.top5 ==> p in plans && Suits(selections, p)
    {
      if !showResult {
        return None;
      }
      var ranked, rec := Recommend(plans, selections);
      assert |ranked| == |multiset(ranked)| == |multiset(Matching(selections, plans))|;
      forall p | p in rec.top5 ensures p in plans && Suits(selections, p) {
        assert p in ranked;
      }
      r := Some(rec);
    }
  }

  // --------------------------------------------------------- recommendation

  function Sel(sel: map<string, string>, key: string): Option<string> {
    if key in sel then Some(sel[key]) else None
  }

  /** Some tag of the plan contains `sub`. */
  predicate TagHas(p: Plan, sub: string) {
    exists t :: t in p.tags && Contains(t, sub)
  }

  /** The people question's stage. */
  predicate PeopleOk(v: Option<string>, p: Plan) {
    if v == Some("couple") then TopServings(p) <= 2
    else if v == Some("small") then p.servingsMin <= 4 && TopServings(p) >= 2
    else if v == Some("medium") then p.servingsMin <= 6 && TopServings(p) >= 4
    else if v == Some("large") then TopServings(p) >= 6
    else true
  }

  /** The budget question's stage. */
  predicate BudgetOk(v: Option<string>, p: Plan) {
    if v == Some("budget") then p.priceDiscount <= 2000
    else if v == Some("mid") then 2000 <= p.priceDiscount <= 5000
    else if v == Some("premium") then 5000 <= p.priceDiscount <= 10000
    else true
  }

  /** The style question's stage: the cuisine, or a tag naming it. */
  predicate StyleOk(v: Option<string>, p: Plan) {
    if v == Some("taiwanese") then p.cuisineStyle == Some(Taiwanese) || TagHas(p, "台")
    else if v == Some("cantonese") then p.cuisineStyle == Some(Cantonese) || TagHas(p, "粵") || TagHas(p, "港")
    else if v == Some("vegetarian") then p.cuisineStyle == Some(VegetarianCuisine) || TagHas(p, "素")
    else true
  }

  /** The delivery question's stage. */
  predicate DeliveryOk(v: Option<string>, p: Plan) {
    if v == Some("delivery") then p.shippingType == Delivery || p.shippingType == Both
    else if v == Some("pickup") then p.shippingType == Pickup || p.shippingType == Both
    else true
  }

  /** The region question's stage: a named region (not 'nationwide')
      keeps that region's plans and the nationwide ones. */
  predicate RegionOk(v: Option<string>, p: Plan) {
    if Present(v) && v.value != "nationwide" then
      p.region.Some? && (RegionName(p.region.value) == v.value || p.region.value == Nationwide)
    else true
  }

  /** Stage `k` of the run: 0 keeps the published plans, 1 to 5 are the
      people, budget, style, delivery and region questions. */
  predicate Stage(k: nat, sel: map<string, string>, p: Plan) {
    if k == 0 then p.status == Published
    else if k == 1 then PeopleOk(Sel(sel, "people"), p)
    else if k == 2 then BudgetOk(Sel(sel, "budget"), p)
    else if k == 3 then StyleOk(Sel(sel, "style"), p)
    else if k == 4 then DeliveryOk(Sel(sel, "delivery"), p)
    else RegionOk(Sel(sel, "region"), p)
  }

  /** Whether the switch of stage `k` has a case for the answer given. */
  predicate Active(k: nat, sel: map<string, string>) {
    if k == 1 then Sel(sel, "people") in {Some("couple"), Some("small"), Some("medium"), Some("large")}
    else if k == 2 then Sel(sel, "budget") in {Some("budget"), Some("mid"), Some("premium")}
    else if k == 3 then Sel(sel, "style") in {Some("taiwanese"), Some("cantonese"), Some("vegetarian")}
    else if k == 4 then Sel(sel, "delivery") in {Some("delivery"), Some("pickup")}
    else if k == 5 then Present(Sel(sel, "region")) && Sel(sel, "region").value != "nationwide"
    else true
  }

  /** Passing stages 0 to `k`. */
  predicate UpTo(k: nat, sel: map<string, string>, p: Plan) {
    Stage(k, sel, p) && (k == 0 || UpTo(k - 1, sel, p))
  }

  /** Passing every stage. */
  predicate Suits(sel: map<string, string>, p: Plan) {
    UpTo(5, sel, p)
  }

  /** A recommended plan is published and answers every question. */
  lemma Suits_Stages(sel: map<string, string>, p: Plan)
    ensures Suits(sel, p) <==> (p.status == Published && PeopleOk(Sel(sel, "people"), p)
                                && BudgetOk(Sel(sel, "budget"), p) && StyleOk(Sel(sel, "style"), p)
                                && DeliveryOk(Sel(sel, "delivery"), p) && RegionOk(Sel(sel, "region"), p))
  {
    assert UpTo(0, sel, p) <==> p.status == Published;
    assert UpTo(1, sel, p) <==> Stage(1, sel, p) && UpTo(0, sel, p);
    assert UpTo(5, sel, p) <==> Stage(5, sel, p) && UpTo(4, sel, p);
    assert UpTo(4, sel, p) <==> Stage(4, sel, p) && UpTo(3, sel, p);
    assert UpTo(3, sel, p) <==> Stage(3, sel, p) && UpTo(2, sel, p);
    assert UpTo(2, sel, p) <==> Stage(2, sel, p) && UpTo(1, sel, p);
  }

  /** A stage whose switch has no case for the answer keeps every plan. */
  lemma Inactive_Keeps(k: nat, sel: map<string, string>, p: Plan)
    requires 1 <= k <= 5 && !Active(k, sel)
    ensures Stage(k, sel, p)
  {
  }

  /** One `switch` stage of the run: filters by stage `k` when the answer
      has a case, keeps the list otherwise. */
  method RunStage(k: nat, sel: map<string, string>, plans: seq<Plan>, filtered: seq<Plan>) returns (r: seq<Plan>)
    requires 1 <= k <= 5
    requires filtered == Filter((p: Plan) => UpTo(k - 1, sel, p), plans)
    ensures r == Filter((p: Plan) => UpTo(k, sel, p), plans)
  {
    if Active(k, sel) {
      r := Filter((p: Plan) => Stage(k, sel, p), filtered);
    } else {
      forall i | 0 <= i < |filtered| ensures Stage(k, sel, filtered[i]) {
        Inactive_Keeps(k, sel, filtered[i]);
      }
      Filter_All((p: Plan) => Stage(k, sel, p), filtered);
      r := Filter((p: Plan) => Stage(k, sel, p), filtered);
    }
    Filter_Filter((p: Plan) => UpTo(k - 1, sel, p), (p: Plan) => Stage(k, sel, p), (p: Plan) => UpTo(k, sel, p), plans);
  }

  /** The 'brand' priority: hotels, then brands, then the rest. */
  function BrandScore(p: Plan): (r: int)
    ensures 0 <= r <= 2 && (r == 0 <==> p.vendorType == Some(Hotel))
  {
    if p.vendorType == Some(Hotel) then 0 else if p.vendorType == Some(Brand) then 1 else 2
  }

  function BrandKey(p: Plan): real { -BrandScore(p) as real }

  function DishKey(p: Plan): real { |p.dishes| as real }

  datatype Recommendation = Recommendation(total: nat, top5: seq<Plan>, avgPrice: int, avgPricePerPerson: int)

  function SumPrices(s: seq<Plan>): int {
    if s == [] then 0 else SumPrices(s[..|s| - 1]) + s[|s| - 1].priceDiscount
  }

  function SumPerPerson(s: seq<Plan>): real {
    if s == [] then 0.0 else SumPerPerson(s[..|s| - 1]) + PerPersonPrice(s[|s| - 1])
  }

  /** The memo's result record: the number of matches, the first five, and
      the rounded mean price and mean price per person (0 without a
      match). */
  function Summarize(ranked: seq<Plan>): (r: Recommendation)
    ensures r.total == |ranked| && |r.top5| <= 5 && |r.top5| <= |ranked| && r.top5 == ranked[..|r.top5|]
    ensures |r.top5| == Min(5, |ranked|)
    ensures ranked == [] ==> r.avgPrice == 0 && r.avgPricePerPerson == 0
  {
    Recommendation(|ranked|, Take(ranked, 5),
                   if |ranked| > 0 then RoundDiv(SumPrices(ranked), |ranked|) else 0,
                   if |ranked| > 0 then Round(SumPerPerson(ranked) / |ranked| as real) else 0)
  }

  /** Prices within bounds sum to within the bounds times the count. */
  lemma {:induction false} SumPrices_Bounds(s: seq<Plan>, lo: int, hi: int)
    requires forall p :: p in s ==> lo <= p.priceDiscount <= hi
    ensures |s| * lo <= SumPrices(s) <= |s| * hi
  {
    if s != [] {
      var init := s[..|s| - 1];
      var n := |init|;
      assert forall p :: p in init ==> p in s;
      SumPrices_Bounds(init, lo, hi);
      assert s[|s| - 1] in s;
      MulSucc(n, lo);
      MulSucc(n, hi);
    }
  }

  lemma MulSucc(n: int, x: int)
    ensures (n + 1) * x == n * x + x
  {
  }

  /** The rounded mean of a sum within `n` times the bounds lies within
      the bounds. */
  lemma RoundDiv_Between(sum: int, n: int, lo: int, hi: int)
    requires n > 0 && n * lo <= sum <= n * hi
    ensures lo <= RoundDiv(sum, n) <= hi
  {
    var a := RoundDiv(sum, n);
    var na := n * a;
    assert 2 * n * a == 2 * na;
    assert 2 * na <= 2 * sum + n < 2 * na + 2 * n;
    if a < lo {
      MulLe(n, a, lo - 1);
    }
    if a > hi {
      MulLe(n, hi + 1, a);
    }
  }

  /** The mean price lies between the cheapest and the dearest match. */
  lemma Summarize_AvgBounds(ranked: seq<Plan>, lo: int, hi: int)
    requires ranked != []
    requires forall p :: p in ranked ==> lo <= p.priceDiscount <= hi
    ensures lo <= Summarize(ranked).avgPrice <= hi
  {
    SumPrices_Bounds(ranked, lo, hi);
    RoundDiv_Between(SumPrices(ranked), |ranked|, lo, hi);
  }

  lemma MulLe(k: int, x: int, y: int)
    requires k >= 0 && x <= y
    ensures k * x <= k * y
  {
  }

  /** The plans that pass every stage, in catalogue order. */
  function Matching(sel: map<string, string>, plans: seq<Plan>): seq<Plan> {
    Filter((p: Plan) => UpTo(5, sel, p), plans)
  }

  lemma Matching_Mem(sel: map<string, string>, plans: seq<Plan>, p: Plan)
    ensures p in Matching(sel, plans) <==> p in plans && Suits(sel, p)
  {
    Filter_Mem((p: Plan) => UpTo(5, sel, p), plans, p);
  }

  /** The five `filtered = filtered.filter(...)` stages after the
      published filter. */
  method FilterStages(plans: seq<Plan>, sel: map<string, string>) returns (filtered: seq<Plan>)
    ensures filtered == Matching(sel, plans)
  {
    filtered := Filter((p: Plan) => p.status == Published, plans);
    assert filtered == Filter((p: Plan) => UpTo(0, sel, p), plans) by {
      Filter_Filter((p: Plan) => true, (p: Plan) => p.status == Published, (p: Plan) => UpTo(0, sel, p), plans);
      Filter_All((p: Plan) => true, plans);
    }
    filtered := RunStage(1, sel, plans, filtered);
    filtered := RunStage(2, sel, plans, filtered);
    filtered := RunStage(3, sel, plans, filtered);
    filtered := RunStage(4, sel, plans, filtered);
    filtered := RunStage(5, sel, plans, filtered);
  }

  /** The priority `switch`: an in-place sort of the matches, or none. */
  method Rank(filtered: seq<Plan>, priority: Option<string>) returns (ranked: seq<Plan>)
    ensures multiset(ranked) == multiset(filtered)
    ensures priority == Some("value") ==> PlanStore.SortedBy(PricePerPersonAsc, ranked)
    ensures priority == Some("brand") ==> Sorting.SortedDesc(ranked, BrandKey)
    ensures priority == Some("variety") ==> Sorting.SortedDesc(ranked, DishKey)
    ensures priority == Some("fast") ==> PlanStore.SortedBy(DeadlineAsc, ranked)
    ensures priority !in {Some("value"), Some("brand"), Some("variety"), Some("fast")} ==> ranked == filtered
  {
    if priority == Some("value") {
      ranked := PlanStore.SortedCopy(filtered, PricePerPersonAsc);
    } else if priority == Some("brand") {
      ranked := Sorting.SortDesc(filtered, BrandKey);
    } else if priority == Some("variety") {
      ranked := Sorting.SortDesc(filtered, DishKey);
    } else if priority == Some("fast") {
      ranked := PlanStore.SortedCopy(filtered, DeadlineAsc);
    } else {
      ranked := filtered;
    }
  }

  /** The `recommendations` memo: the published plans through the five
      answer stages, ordered by the last answer, then summarised. */
  method Recommend(plans: seq<Plan>, sel: map<string, string>) returns (ranked: seq<Plan>, rec: Recommendation)
    ensures multiset(ranked) == multiset(Matching(sel, plans))
    ensures forall p :: p in ranked <==> p in plans && Suits(sel, p)
    ensures Sel(sel, "priority") == Some("value") ==> PlanStore.SortedBy(PricePerPersonAsc, ranked)
    ensures Sel(sel, "priority") == Some("brand") ==> Sorting.SortedDesc(ranked, BrandKey)
    ensures Sel(sel, "priority") == Some("variety") ==> Sorting.SortedDesc(ranked, DishKey)
    ensures Sel(sel, "priority") == Some("fast") ==> PlanStore.SortedBy(DeadlineAsc, ranked)
    ensures rec == Summarize(ranked)
  {
    var filtered := FilterStages(plans, sel);
    ranked := Rank(filtered, Sel(sel, "priority"));
    forall p ensures p in ranked <==> p in plans && Suits(sel, p) {
      assert p in ranked <==> p in multiset(filtered);
      Matching_Mem(sel, plans, p);
    }
    rec := Summarize(ranked);
  }

  // ------------------------------------------------------------ applyFilters

  const VegetarianTags: seq<string> := ["素食", "全素", "蛋奶素", "蔬食"]

  /** The sort `applyFilters` hands to `setSortBy`. */
  function SortFor(priority: Option<string>): (r: SortOption)
    ensures priority == Some("value") ==> r == PricePerPersonAsc
    ensures priority == Some("fast") ==> r == DeadlineAsc
    ensures priority != Some("value") && priority != Some("brand") && priority != Some("fast") ==> r == PriceAsc
  {
    if priority == Some("value") then PricePerPersonAsc
    else if priority == Some("brand") then VendorAsc
    else if priority == Some("fast") then DeadlineAsc
    else PriceAsc
  }

  function ServingsMinFor(people: Option<string>): Option<int> {
    if people == Some("medium") then Some(4) else if people == Some("large") then Some(6) else None
  }

  function ServingsMaxFor(people: Option<string>): Option<int> {
    if people == Some("couple") then Some(2)
    else if people == Some("small") then Some(4)
    else if people == Some("medium") then Some(6)
    else None
  }

  function PriceMinFor(budget: Option<string>): Option<int> {
    if budget == Some("mid") then Some(2000) else if budget == Some("premium") then Some(5000) else None
  }

  function PriceMaxFor(budget: Option<string>): Option<int> {
    if budget == Some("budget") then Some(2000)
    else if budget == Some("mid") then Some(5000)
    else if budget == Some("premium") then Some(10000)
    else None
  }

  function CuisineFor(style: Option<string>): Option<UiFilters.Choice<CuisineStyle>> {
    if style == Some("taiwanese") then Some(UiFilters.Only(Taiwanese))
    else if style == Some("cantonese") then Some(UiFilters.Only(Cantonese))
    else None
  }

  /** An answer other than 'any' is written even when it names no
      shipping type, which leaves the shipping type unset; 'any' keeps the
      default of every type. */
  function ShippingFor(delivery: Option<string>): Option<UiFilters.Choice<ShippingType>> {
    if delivery == Some("any") then UiFilters.Defaults.shippingType
    else if delivery.Some? && ParseShippingType(delivery.value).Some? then Some(UiFilters.Only(ParseShippingType(delivery.value).value))
    else None
  }

  function RegionFor(region: Option<string>): Option<UiFilters.Choice<TaiwanRegion>> {
    if Present(region) && region.value != "nationwide" && ParseRegion(region.value).Some? then
      Some(UiFilters.Only(ParseRegion(region.value).value))
    else None
  }

  /** `applyFilters()`: the default filters (after `resetFilters`) merged
      with the record built from the answers, and the chosen sort. The
      wizard then closes (`handleClose`); the dialog's visibility is not
      part of the model. */
  function ApplyFilters(sel: map<string, string>): (r: (UiFilters.Filters, SortOption))
    ensures r.0.onlyPublished == Some(true)
    ensures r.1 == SortFor(Sel(sel, "priority"))
  {
    var style := Sel(sel, "style");
    var d := UiFilters.Defaults;
    (UiFilters.Filters(
       PriceMinFor(Sel(sel, "budget")), PriceMaxFor(Sel(sel, "budget")), d.pricePerPersonMax,
       ServingsMinFor(Sel(sel, "people")), ServingsMaxFor(Sel(sel, "people")),
       ShippingFor(Sel(sel, "delivery")), d.shippingTypes, d.shippingFee, d.storageType, d.storageTypes,
       d.maxDistance, d.targetDate, d.mustBeBeforeDeadline, d.canSelectDate,
       if style == Some("vegetarian") then Some(VegetarianTags) else d.tags,
       if style == Some("vegetarian") then Some(PlanStore.Or) else d.tagLogic,
       d.searchQuery, Some(true), RegionFor(Sel(sel, "region")), d.city, d.district,
       d.showFavoritesOnly, d.showHistoryOnly, d.excludeKeywords, d.vendorType, d.productType,
       CuisineFor(style), d.priceLevel, d.familySize),
     SortFor(Sel(sel, "priority")))
  }

  /** Without answers the wizard's filters run as the default ones: the
      missing delivery answer unsets the shipping type instead of choosing
      'all', which restricts nothing either. */
  lemma ApplyFilters_NoAnswers()
    ensures ApplyFilters(map[]).0 == UiFilters.Defaults.(shippingType := None)
    ensures UiFilters.StoreView(ApplyFilters(map[]).0) == PlanStore.DefaultFilters
  {
  }

  /** The answer mapping: two people cap the servings at 2, a large family
      asks for at least 6, the small budget caps the price at 2000, 'any'
      delivery keeps every shipping type, and a vegetarian style asks for
      any of the vegetarian tags. */
  lemma ApplyFilters_Answers(sel: map<string, string>)
    ensures Sel(sel, "people") == Some("couple") ==> ApplyFilters(sel).0.servingsMax == Some(2)
    ensures Sel(sel, "people") == Some("large") ==> ApplyFilters(sel).0.servingsMin == Some(6) && ApplyFilters(sel).0.servingsMax.None?
    ensures Sel(sel, "budget") == Some("budget") ==> ApplyFilters(sel).0.priceMax == Some(2000) && ApplyFilters(sel).0.priceMin.None?
    ensures Sel(sel, "delivery") == Some("any") ==> UiFilters.Chosen(ApplyFilters(sel).0.shippingType).None?
    ensures Sel(sel, "delivery") == Some("pickup") ==> UiFilters.Chosen(ApplyFilters(sel).0.shippingType) == Some(Pickup)
    ensures Sel(sel, "style") == Some("vegetarian") ==> ApplyFilters(sel).0.tags == Some(VegetarianTags) && ApplyFilters(sel).0.tagLogic == Some(PlanStore.Or)
    ensures Sel(sel, "region") == Some("north") ==> UiFilters.Chosen(ApplyFilters(sel).0.region) == Some(North)
  {
    if Sel(sel, "delivery") == Some("pickup") {
      assert ParseShippingType("pickup") == Some(Pickup);
    }
    if Sel(sel, "region") == Some("north") {
      assert ParseRegion("north") == Some(North);
    }
  }
}

/** scripts/enrich-data.js: four rules (shipping fee, original price, order
    deadline, classification labels), each run over every record in turn,
    in place; a rule counts a record when its condition holds and its
    enrichment reports a change. */
module EnrichData {
  import opened Common
  import opened PlanRecords

  datatype Rule = FeeRule | OriginalRule | DeadlineRule | ClassRule

  /** The rules in the order the script runs them. */
  const Rules: seq<Rule> := [FeeRule, OriginalRule, DeadlineRule, ClassRule]

  // ------------------------------------------------------------ conditions

  predicate Missing(p: PlanRecord) {
    !Truthy(p.vendorType) || !Truthy(p.productType) || !Truthy(p.cuisineStyle)
    || !Truthy(p.priceLevel) || !Truthy(p.familySize)
  }

  /** `rule.condition(plan)`. */
  predicate Condition(rule: Rule, p: PlanRecord) {
    match rule
    case FeeRule => p.shippingFee.None?
    case OriginalRule => !NumTruthy(p.priceOriginal) && NumTruthy(p.priceDiscount)
    case DeadlineRule => !Truthy(p.orderDeadline)
    case ClassRule => Missing(p)
  }

  // ------------------------------------------------------------ 1. the fee

  const FreeShippingBrands := ["呷七碗", "老協珍", "欣葉", "山海樓", "漢來", "Costco", "全聯"]

  /** A brand of the list in the vendor name or the title, or a '免運'
      tag; a missing name or title reads as empty. */
  predicate HasFreeShipping(p: PlanRecord) {
    (exists i :: 0 <= i < |FreeShippingBrands|
      && (Contains(p.vendorName.GetOr(""), FreeShippingBrands[i]) || Contains(p.title.GetOr(""), FreeShippingBrands[i])))
    || Has(p.tags, "免運")
  }

  /** Nationwide home delivery at 2000 or more. */
  predicate IsExpensiveDelivery(p: PlanRecord) {
    p.region == Some("nationwide") && Has(p.shippingTypes, "delivery")
    && p.priceDiscount.Some? && p.priceDiscount.value >= 2000
  }

  predicate PickupOnly(p: PlanRecord) {
    p.shippingTypes.Some? && |p.shippingTypes.value| == 1 && p.shippingTypes.value[0] == "pickup"
  }

  /** The tags with '免運' appended unless already there. */
  function WithFreeTag(tags: seq<string>): (r: seq<string>)
    ensures "免運" in tags ==> r == tags
    ensures "免運" !in tags ==> r == tags + ["免運"]
  {
    if "免運" in tags then tags else tags + ["免運"]
  }

  /** The fee rule's `enrich`: free for the listed brands, a '免運' tag or
      dear nationwide delivery (with the tag added); not applicable (null,
      uncounted) for pickup only; free for convenience-store pickup. */
  function EnrichFee(p: PlanRecord): (r: (PlanRecord, bool)) {
    if HasFreeShipping(p) || IsExpensiveDelivery(p) then
      (p.(shippingFee := Some(0), tags := Some(WithFreeTag(OrEmpty(p.tags)))), true)
    else if PickupOnly(p) then (p.(shippingFee := None), false)
    else if Has(p.shippingTypes, "convenience") then (p.(shippingFee := Some(0)), true)
    else (p, false)
  }

  /** A counted fee is always 0; the '免運' tag appears at most once more
      than before and only alongside a zero fee; pickup-only plans stay
      without a fee and are not counted. */
  lemma EnrichFee_Rule(p: PlanRecord)
    ensures EnrichFee(p).1 ==> EnrichFee(p).0.shippingFee == Some(0)
    ensures !EnrichFee(p).1 ==> EnrichFee(p).0 == p.(shippingFee := EnrichFee(p).0.shippingFee)
    ensures !EnrichFee(p).1 ==> EnrichFee(p).0.shippingFee == p.shippingFee || EnrichFee(p).0.shippingFee.None?
    ensures HasFreeShipping(p) || IsExpensiveDelivery(p) ==> EnrichFee(p).1 && "免運" in OrEmpty(EnrichFee(p).0.tags)
    ensures EnrichFee(p).0.tags == p.tags || EnrichFee(p).0.tags == Some(WithFreeTag(OrEmpty(p.tags)))
    ensures !(HasFreeShipping(p) || IsExpensiveDelivery(p)) && PickupOnly(p) ==>
      !EnrichFee(p).1 && EnrichFee(p).0.shippingFee.None?
  {
  }

  /** The tag is never doubled: with no '免運' before there is exactly one
      after. */
  lemma WithFreeTag_Once(tags: seq<string>)
    requires "免運" !in tags
    ensures multiset(WithFreeTag(tags))["免運"] == 1
  {
    assert multiset(tags)["免運"] == 0;
    assert multiset(tags + ["免運"]) == multiset(tags) + multiset{"免運"};
  }

  // --------------------------------------------------- 2. original price

  const DiscountWords := ["早鳥", "優惠", "折"]

  predicate HasDiscountTag(p: PlanRecord) {
    exists i, j :: 0 <= i < |OrEmpty(p.tags)| && 0 <= j < |DiscountWords| && Contains(OrEmpty(p.tags)[i], DiscountWords[j])
  }

  /** `Math.round(d / 0.85)` and `Math.round(d / 0.88)`, the quotients
      taken exactly. */
  function EarlyBirdOriginal(d: int): (r: int)
    ensures 34 * r <= 40 * d + 17 < 34 * r + 34
  {
    RoundDiv(20 * d, 17)
  }

  function HotelOriginal(d: int): (r: int)
    ensures 44 * r <= 50 * d + 22 < 44 * r + 44
  {
    RoundDiv(25 * d, 22)
  }

  /** The original-price rule's `enrich`. */
  function EnrichOriginal(p: PlanRecord): (r: (PlanRecord, bool))
    requires p.priceDiscount.Some?
  {
    if HasDiscountTag(p) then (p.(priceOriginal := Some(EarlyBirdOriginal(p.priceDiscount.value))), true)
    else if p.vendorType == Some("hotel") then (p.(priceOriginal := Some(HotelOriginal(p.priceDiscount.value))), true)
    else (p, false)
  }

  /** For a non-negative price the estimate is never below the price, and
      the record changes exactly when it is counted. */
  lemma EnrichOriginal_Rule(p: PlanRecord)
    requires p.priceDiscount.Some? && p.priceDiscount.value >= 0
    ensures EnrichOriginal(p).1 ==> EnrichOriginal(p).0.priceOriginal.Some?
    ensures EnrichOriginal(p).1 ==> EnrichOriginal(p).0.priceOriginal.value >= p.priceDiscount.value
    ensures EnrichOriginal(p).1 <==> HasDiscountTag(p) || p.vendorType == Some("hotel")
    ensures !EnrichOriginal(p).1 ==> EnrichOriginal(p).0 == p
  {
  }

  // --------------------------------------------------------- 3. deadline

  /** The deadline rule's `enrich`: frozen home delivery closes first,
      pickup last, anything else in between; always counted. */
  function EnrichDeadline(p: PlanRecord): (r: (PlanRecord, bool))
    ensures r.1 && Truthy(r.0.orderDeadline)
    ensures r.0.orderDeadline.value in {"2026-01-20", "2026-01-25", "2026-01-22"}
    ensures r.0 == p.(orderDeadline := r.0.orderDeadline)
  {
    var deadline :=
      if Has(p.shippingTypes, "delivery") && Has(p.storageTypes, "frozen") then "2026-01-20"
      else if Has(p.shippingTypes, "pickup") then "2026-01-25"
      else "2026-01-22";
    (p.(orderDeadline := Some(deadline)), true)
  }

  /** Frozen delivery gets 20 January, else pickup 25 January, else 22
      January. */
  lemma EnrichDeadline_Dates(p: PlanRecord)
    ensures Has(p.shippingTypes, "delivery") && Has(p.storageTypes, "frozen") ==>
      EnrichDeadline(p).0.orderDeadline == Some("2026-01-20")
    ensures !(Has(p.shippingTypes, "delivery") && Has(p.storageTypes, "frozen")) && Has(p.shippingTypes, "pickup") ==>
      EnrichDeadline(p).0.orderDeadline == Some("2026-01-25")
    ensures !(Has(p.shippingTypes, "delivery") && Has(p.storageTypes, "frozen")) && !Has(p.shippingTypes, "pickup") ==>
      EnrichDeadline(p).0.orderDeadline == Some("2026-01-22")
  {
  }

  // ----------------------------------------------------- 4. classification

  function VendorTypeOf(p: PlanRecord): string {
    var tags, name := OrEmpty(p.tags), p.vendorName.GetOr("");
    if "飯店級" in tags || Contains(name, "飯店") || Contains(name, "酒店") then "hotel"
    else if "素食" in tags || Contains(name, "蔬食") then "vegetarian"
    else if Contains(name, "7-11") || Contains(name, "全家") then "convenience"
    else "restaurant"
  }

  function ProductTypeOf(p: PlanRecord): string {
    var tags := OrEmpty(p.tags);
    if "單品" in tags || (p.dishes.Some? && |p.dishes.value| == 1) then "single"
    else if "伴手禮" in tags then "gift"
    else "combo"
  }

  function CuisineStyleOf(p: PlanRecord): string {
    var tags := OrEmpty(p.tags);
    if "粵式" in tags then "cantonese"
    else if "台式" in tags then "taiwanese"
    else if "日式" in tags then "japanese"
    else if "川菜" in tags || "湘菜" in tags then "sichuan"
    else if "上海菜" in tags then "shanghai"
    else "mixed"
  }

  /** This script's price labels: 'mid' and 'high' where the app says
      'mid_range' and 'premium'; a missing price compares false
      everywhere and gives 'luxury' (a JSON `null`, compared as 0 by
      JavaScript, would give 'budget'; the record does not tell the two
      apart). */
  function PriceLabel(price: Option<int>): (r: string)
    ensures |r| > 0
  {
    if price.None? then "luxury"
    else if price.value < 2000 then "budget"
    else if price.value < 5000 then "mid"
    else if price.value < 10000 then "high"
    else "luxury"
  }

  /** This script's household labels on `servingsMax || servingsMin`:
      up to 4 small, 6 medium, 8 large, else 'xl' (also for a missing
      count; a JSON `null`, compared as 0 by JavaScript, would give
      'small'; the record does not tell the two apart). */
  function FamilyLabel(servingsMin: Option<int>, servingsMax: Option<int>): (r: string)
    ensures |r| > 0
  {
    var m := if NumTruthy(servingsMax) then servingsMax else servingsMin;
    if m.None? then "xl"
    else if m.value <= 4 then "small"
    else if m.value <= 6 then "medium"
    else if m.value <= 8 then "large"
    else "xl"
  }

  /** The labels follow the thresholds in order: a dearer price never gets
      a cheaper label, a larger household never a smaller one. */
  lemma Labels_Monotone(a: int, b: int)
    requires a <= b
    ensures PriceRank(PriceLabel(Some(a))) <= PriceRank(PriceLabel(Some(b)))
    ensures FamilyRank(FamilyLabel(None, Some(a))) <= FamilyRank(FamilyLabel(None, Some(b))) || a == 0
  {
  }

  function PriceRank(s: string): int {
    if s == "budget" then 0 else if s == "mid" then 1 else if s == "high" then 2 else 3
  }

  function FamilyRank(s: string): int {
    if s == "small" then 0 else if s == "medium" then 1 else if s == "large" then 2 else 3
  }

  /** The classification rule's `enrich`: each falsy label filled, the
      others kept; it reports a change exactly when a label was missing. */
  function EnrichClasses(p: PlanRecord): (r: (PlanRecord, bool))
    ensures r.1 == Missing(p)
  {
    (p.(vendorType := if Truthy(p.vendorType) then p.vendorType else Some(VendorTypeOf(p)),
        productType := if Truthy(p.productType) then p.productType else Some(ProductTypeOf(p)),
        cuisineStyle := if Truthy(p.cuisineStyle) then p.cuisineStyle else Some(CuisineStyleOf(p)),
        priceLevel := if Truthy(p.priceLevel) then p.priceLevel else Some(PriceLabel(p.priceDiscount)),
        familySize := if Truthy(p.familySize) then p.familySize else Some(FamilyLabel(p.servingsMin, p.servingsMax))),
     Missing(p))
  }

  /** Present labels are kept and, afterwards, none is missing. */
  lemma EnrichClasses_Fills(p: PlanRecord)
    ensures Truthy(p.vendorType) ==> EnrichClasses(p).0.vendorType == p.vendorType
    ensures Truthy(p.productType) ==> EnrichClasses(p).0.productType == p.productType
    ensures Truthy(p.cuisineStyle) ==> EnrichClasses(p).0.cuisineStyle == p.cuisineStyle
    ensures Truthy(p.priceLevel) ==> EnrichClasses(p).0.priceLevel == p.priceLevel
    ensures Truthy(p.familySize) ==> EnrichClasses(p).0.familySize == p.familySize
    ensures !Missing(EnrichClasses(p).0)
  {
    var v, t, c := VendorTypeOf(p), ProductTypeOf(p), CuisineStyleOf(p);
    assert |v| > 0 && |t| > 0 && |c| > 0;
  }

  // ------------------------------------------------------------ the loops

  /** One record under one rule: enriched when the condition holds, with
      whether it counts. */
  function Step(rule: Rule, p: PlanRecord): (r: (PlanRecord, bool))
    ensures !Condition(rule, p) ==> r == (p, false)
  {
    if !Condition(rule, p) then (p, false)
    else match rule
      case FeeRule => EnrichFee(p)
      case OriginalRule => EnrichOriginal(p)
      case DeadlineRule => EnrichDeadline(p)
      case ClassRule => EnrichClasses(p)
  }

  /** Every record under one rule. */
  function Pass(rule: Rule, ps: seq<PlanRecord>): (r: seq<PlanRecord>)
    ensures |r| == |ps|
  {
    seq(|ps|, i requires 0 <= i < |ps| => Step(rule, ps[i]).0)
  }

  /** How many records one rule counts. */
  function Applied(rule: Rule, ps: seq<PlanRecord>): (n: nat)
    ensures n <= |ps|
  {
    if ps == [] then 0 else Applied(rule, ps[..|ps| - 1]) + (if Step(rule, ps[|ps| - 1]).1 then 1 else 0)
  }

  /** A rule counts only records whose condition holds. */
  lemma {:induction false} Applied_Condition(rule: Rule, ps: seq<PlanRecord>)
    ensures Applied(rule, ps) <= |Filter((p: PlanRecord) => Condition(rule, p), ps)|
  {
    if ps != [] {
      var init, last := ps[..|ps| - 1], ps[|ps| - 1];
      Applied_Condition(rule, init);
      assert ps == init + [last];
      Filter_Append((p: PlanRecord) => Condition(rule, p), init, [last]);
    }
  }

  /** After the deadline pass every record has a deadline, and after the
      classification pass no label is missing. */
  lemma Pass_Completes(ps: seq<PlanRecord>)
    ensures forall i :: 0 <= i < |ps| ==> Truthy(Pass(DeadlineRule, ps)[i].orderDeadline)
    ensures forall i :: 0 <= i < |ps| ==> !Missing(Pass(ClassRule, ps)[i])
  {
    forall i | 0 <= i < |ps| ensures !Missing(Pass(ClassRule, ps)[i]) {
      EnrichClasses_Fills(ps[i]);
    }
  }

  /** The first `k` records have been through the rule. */
  ghost predicate PassedUpTo(rule: Rule, before: seq<PlanRecord>, plans: seq<PlanRecord>, k: nat) {
    |plans| == |before| && k <= |before|
    && (forall m :: 0 <= m < k ==> plans[m] == Step(rule, before[m]).0)
    && (forall m :: k <= m < |before| ==> plans[m] == before[m])
  }

  lemma PassedUpTo_Step(rule: Rule, before: seq<PlanRecord>, plans: seq<PlanRecord>, k: nat)
    requires k < |before| && PassedUpTo(rule, before, plans, k)
    ensures plans[k] == before[k]
    ensures PassedUpTo(rule, before, plans[k := Step(rule, before[k]).0], k + 1)
  {
  }

  lemma Applied_Step(rule: Rule, ps: seq<PlanRecord>, k: nat)
    requires k < |ps|
    ensures Applied(rule, ps[..k + 1]) == Applied(rule, ps[..k]) + (if Step(rule, ps[k]).1 then 1 else 0)
  {
    assert ps[..k + 1][..k] == ps[..k];
  }

  /** The inner loop: one rule over every record, in place. */
  method RunRule(rule: Rule, plans: seq<PlanRecord>) returns (out: seq<PlanRecord>, count: nat)
    ensures out == Pass(rule, plans)
    ensures count == Applied(rule, plans)
  {
    out, count := plans, 0;
    for k := 0 to |plans|
      invariant PassedUpTo(rule, plans, out, k)
      invariant count == Applied(rule, plans[..k])
    {
      PassedUpTo_Step(rule, plans, out, k);
      Applied_Step(rule, plans, k);
      var plan := out[k];
      if Condition(rule, plan) {
        var enriched := Step(rule, plan);
        out := out[k := enriched.0];
        if enriched.1 {
          count := count + 1;
        }
      }
    }
    assert plans[..|plans|] == plans;
  }

  /** The records after the first `n` rules, and what those rules count. */
  function Passes(rules: seq<Rule>, ps: seq<PlanRecord>): (r: seq<PlanRecord>)
    ensures |r| == |ps|
  {
    if rules == [] then ps else Pass(rules[|rules| - 1], Passes(rules[..|rules| - 1], ps))
  }

  function Enriched(rules: seq<Rule>, ps: seq<PlanRecord>): nat {
    if rules == [] then 0
    else Enriched(rules[..|rules| - 1], ps) + Applied(rules[|rules| - 1], Passes(rules[..|rules| - 1], ps))
  }

  /** The whole script: the four rules in order, with the total count. */
  method Enrich(plans: seq<PlanRecord>) returns (out: seq<PlanRecord>, enrichedCount: nat)
    ensures out == Passes(Rules, plans)
    ensures enrichedCount == Enriched(Rules, plans)
  {
    out, enrichedCount := plans, 0;
    for r := 0 to |Rules|
      invariant out == Passes(Rules[..r], plans)
      invariant enrichedCount == Enriched(Rules[..r], plans)
    {
      assert Rules[..r + 1][..r] == Rules[..r];
      var count;
      out, count := RunRule(Rules[r], out);
      enrichedCount := enrichedCount + count;
    }
    assert Rules[..|Rules|] == Rules;
  }

  /** After the script every record has every label: vendor type, product
      type, cuisine style, price level and family size. */
  lemma Enrich_Completes(plans: seq<PlanRecord>)
    ensures forall i :: 0 <= i < |plans| ==> !Missing(Passes(Rules, plans)[i])
  {
    assert Rules[..|Rules| - 1] == [FeeRule, OriginalRule, DeadlineRule];
    Pass_Completes(Passes([FeeRule, OriginalRule, DeadlineRule], plans));
  }
}

/** scripts/fix-data.js: infers missing shipping and storage lists, a free
    shipping fee and an estimated original price from a record's wording,
    and restamps every record. The clock is `now`. */
module FixData {
  import opened Common
  import opened PlanRecords

  /** `[title, description || '', ...tags].join(' ')`; a missing title
      joins as the empty string. */
  function Wording(p: PlanRecord): string {
    Join([p.title.GetOr(""), OrText(p.description, "")] + OrEmpty(p.tags), " ")
  }

  /** Some keyword of the list occurs in the text. */
  predicate AnyIn(text: string, kws: seq<string>) {
    exists i :: 0 <= i < |kws| && Contains(text, kws[i])
  }

  const DeliveryWords := ["宅配", "配送", "到府", "冷凍"]
  const PickupWords := ["自取", "取貨", "門市", "現場"]
  const ConvenienceWords := ["超商", "7-11", "全家", "萊爾富"]

  /** The shipping methods the keywords name, in the order delivery,
      pickup, convenience store. */
  function KeywordShipping(text: string): (r: seq<string>)
    ensures forall t :: t in r ==> t in {"delivery", "pickup", "convenience"}
  {
    (if AnyIn(text, DeliveryWords) then ["delivery"] else [])
    + (if AnyIn(text, PickupWords) then ["pickup"] else [])
    + (if AnyIn(text, ConvenienceWords) then ["convenience"] else [])
  }

  /** `inferShippingTypes(plan)`. */
  function InferShippingTypes(p: PlanRecord): (r: seq<string>)
    ensures r != []
  {
    var types := KeywordShipping(Lower(Wording(p)));
    var types := if types == [] && Truthy(p.shippingType) then
                   (if p.shippingType.value == "both" then ["delivery", "pickup"] else [p.shippingType.value])
                 else types;
    if types != [] then types else ["delivery"]
  }

  /** The keywords decide when one matches; the old shipping type ('both'
      as delivery and pickup) only when none does; 'delivery' otherwise. */
  lemma InferShippingTypes_Rule(p: PlanRecord)
    ensures KeywordShipping(Lower(Wording(p))) != [] ==> InferShippingTypes(p) == KeywordShipping(Lower(Wording(p)))
    ensures KeywordShipping(Lower(Wording(p))) == [] && p.shippingType == Some("both") ==>
      InferShippingTypes(p) == ["delivery", "pickup"]
    ensures KeywordShipping(Lower(Wording(p))) == [] && Truthy(p.shippingType) && p.shippingType != Some("both") ==>
      InferShippingTypes(p) == [p.shippingType.value]
    ensures KeywordShipping(Lower(Wording(p))) == [] && !Truthy(p.shippingType) ==> InferShippingTypes(p) == ["delivery"]
  {
  }

  const FrozenWords := ["冷凍", "frozen", "急凍"]
  const ChilledWords := ["冷藏", "鮮食", "新鮮"]
  const RoomTempWords := ["常溫", "室溫", "乾貨"]

  /** The storage methods the keywords name, in the order frozen, chilled,
      room temperature. */
  function KeywordStorage(text: string): (r: seq<string>)
    ensures forall t :: t in r ==> t in {"frozen", "chilled", "room_temp"}
  {
    (if AnyIn(text, FrozenWords) then ["frozen"] else [])
    + (if AnyIn(text, ChilledWords) then ["chilled"] else [])
    + (if AnyIn(text, RoomTempWords) then ["room_temp"] else [])
  }

  /** `inferStorageTypes(plan)`. */
  function InferStorageTypes(p: PlanRecord): (r: seq<string>)
    ensures r != []
  {
    var types := KeywordStorage(Lower(Wording(p)));
    var types := if types == [] && Truthy(p.storageType) && p.storageType.value != "unknown" then [p.storageType.value] else types;
    if types != [] then types else ["frozen"]
  }

  /** The old storage type is used only when no keyword matches and it is
      not 'unknown'; 'frozen' otherwise. */
  lemma InferStorageTypes_Rule(p: PlanRecord)
    ensures KeywordStorage(Lower(Wording(p))) != [] ==> InferStorageTypes(p) == KeywordStorage(Lower(Wording(p)))
    ensures KeywordStorage(Lower(Wording(p))) == [] && Truthy(p.storageType) && p.storageType != Some("unknown") ==>
      InferStorageTypes(p) == [p.storageType.value]
    ensures KeywordStorage(Lower(Wording(p))) == [] && (!Truthy(p.storageType) || p.storageType == Some("unknown")) ==>
      InferStorageTypes(p) == ["frozen"]
    ensures "unknown" !in InferStorageTypes(p)
  {
  }

  predicate IsDigit(c: char) { '0' <= c <= '9' }

  /** `/滿\d+免運/`: '滿', one digit or more, then '免運', starting at `i`
      with the digits ending before `j`. */
  predicate ThresholdAt(text: string, i: int, j: int) {
    0 <= i && i + 1 < j && OccursAt(text, "免運", j)
    && text[i] == '滿' && forall k :: i < k < j ==> IsDigit(text[k])
  }

  predicate FreeThreshold(text: string) {
    exists i, j | 0 <= i < j <= |text| :: ThresholdAt(text, i, j)
  }

  /** The threshold wording contains '免運' itself, so the pattern never
      decides anything the plain keyword test has not. */
  lemma FreeThreshold_Subsumed(text: string)
    requires FreeThreshold(text)
    ensures Contains(text, "免運")
  {
    var i, j :| 0 <= i < j <= |text| && ThresholdAt(text, i, j);
    assert OccursAt(text, "免運", j);
  }

  const FreeWords := ["免運", "免費配送", "運費0"]

  /** `inferShippingFee(plan)`, with the threshold pattern as written. */
  function InferShippingFee(p: PlanRecord): (r: Option<int>)
    ensures r == Some(0) || r == p.shippingFee
  {
    var text := Wording(p);
    if AnyIn(text, FreeWords) then Some(0)
    else if FreeThreshold(text) then Some(0)
    else p.shippingFee
  }

  /** 0 exactly for free-shipping wording, else the original fee. */
  lemma InferShippingFee_Rule(p: PlanRecord)
    ensures AnyIn(Wording(p), FreeWords) ==> InferShippingFee(p) == Some(0)
    ensures !AnyIn(Wording(p), FreeWords) ==> InferShippingFee(p) == p.shippingFee
  {
    var text := Wording(p);
    if FreeThreshold(text) {
      FreeThreshold_Subsumed(text);
      assert Contains(text, FreeWords[0]);
    }
  }

  const PromoWords := ["早鳥", "優惠", "特價"]

  /** `Math.round(discount * 1.1)`, the product taken exactly. */
  function EstimateOriginal(discount: int): (r: int)
    ensures 20 * r <= 22 * discount + 10 < 20 * r + 20
  {
    RoundDiv(11 * discount, 10)
  }

  predicate NeedsShippingTypes(p: PlanRecord) { p.shippingTypes.None? || p.shippingTypes.value == [] }
  predicate NeedsStorageTypes(p: PlanRecord) { p.storageTypes.None? || p.storageTypes.value == [] }
  predicate GetsFee(p: PlanRecord) { p.shippingFee.None? && InferShippingFee(p).Some? }
  predicate GetsOriginal(p: PlanRecord) {
    !NumTruthy(p.priceOriginal) && NumTruthy(p.priceDiscount) && AnyIn(Join(OrEmpty(p.tags), " "), PromoWords)
  }

  /** The copy the map callback returns for one record. */
  function FixPlan(p: PlanRecord, now: int): (r: PlanRecord)
    ensures r.id == p.id && Key(r) == Key(p) && r.updatedAt == now
  {
    p.(shippingTypes := if NeedsShippingTypes(p) then Some(InferShippingTypes(p)) else p.shippingTypes,
       storageTypes := if NeedsStorageTypes(p) then Some(InferStorageTypes(p)) else p.storageTypes,
       shippingFee := if GetsFee(p) then InferShippingFee(p) else p.shippingFee,
       priceOriginal := if GetsOriginal(p) then Some(EstimateOriginal(p.priceDiscount.value)) else p.priceOriginal,
       updatedAt := now)
  }

  /** Non-empty lists, a known fee and a truthy original price are kept;
      the lists become non-empty; a missing fee becomes 0 only for free
      wording; the original price is estimated only when missing and the
      tags promise a discount. Nothing else but the update instant
      changes. */
  lemma FixPlan_Fields(p: PlanRecord, now: int)
    ensures !NeedsShippingTypes(p) ==> FixPlan(p, now).shippingTypes == p.shippingTypes
    ensures !NeedsStorageTypes(p) ==> FixPlan(p, now).storageTypes == p.storageTypes
    ensures !NeedsShippingTypes(FixPlan(p, now)) && !NeedsStorageTypes(FixPlan(p, now))
    ensures p.shippingFee.Some? ==> FixPlan(p, now).shippingFee == p.shippingFee
    ensures p.shippingFee.None? ==> (FixPlan(p, now).shippingFee == Some(0) <==> AnyIn(Wording(p), FreeWords))
    ensures GetsOriginal(p) ==> FixPlan(p, now).priceOriginal == Some(EstimateOriginal(p.priceDiscount.value))
    ensures !GetsOriginal(p) ==> FixPlan(p, now).priceOriginal == p.priceOriginal
    ensures FixPlan(p, now).(shippingTypes := p.shippingTypes, storageTypes := p.storageTypes, shippingFee := p.shippingFee,
                             priceOriginal := p.priceOriginal, updatedAt := p.updatedAt) == p
  {
    InferShippingFee_Rule(p);
  }

  /** The counters main() prints. */
  datatype Stats = Stats(addedShippingTypes: nat, addedStorageTypes: nat, addedShippingFee: nat, fixedOriginalPrice: nat)

  /** The counters for a list of records. */
  function StatsOf(ps: seq<PlanRecord>): (s: Stats)
    ensures s.addedShippingTypes <= |ps| && s.addedStorageTypes <= |ps|
    ensures s.addedShippingFee <= |ps| && s.fixedOriginalPrice <= |ps|
  {
    Stats(Count(NeedsShippingTypes, ps), Count(NeedsStorageTypes, ps), Count(GetsFee, ps), Count(GetsOriginal, ps))
  }

  /** The first `k` records are fixed, in order. */
  ghost predicate FixedUpTo(plans: seq<PlanRecord>, out: seq<PlanRecord>, k: nat, now: int) {
    k <= |plans| && |out| == k && forall m :: 0 <= m < k ==> out[m] == FixPlan(plans[m], now)
  }

  lemma FixedUpTo_Step(plans: seq<PlanRecord>, out: seq<PlanRecord>, k: nat, now: int)
    requires k < |plans| && FixedUpTo(plans, out, k, now)
    ensures FixedUpTo(plans, out + [FixPlan(plans[k], now)], k + 1, now)
  {
  }

  /** One more record moves each counter by its own condition. */
  lemma StatsOf_Step(plans: seq<PlanRecord>, k: nat)
    requires k < |plans|
    ensures StatsOf(plans[..k + 1]).addedShippingTypes == StatsOf(plans[..k]).addedShippingTypes + (if NeedsShippingTypes(plans[k]) then 1 else 0)
    ensures StatsOf(plans[..k + 1]).addedStorageTypes == StatsOf(plans[..k]).addedStorageTypes + (if NeedsStorageTypes(plans[k]) then 1 else 0)
    ensures StatsOf(plans[..k + 1]).addedShippingFee == StatsOf(plans[..k]).addedShippingFee + (if GetsFee(plans[k]) then 1 else 0)
    ensures StatsOf(plans[..k + 1]).fixedOriginalPrice == StatsOf(plans[..k]).fixedOriginalPrice + (if GetsOriginal(plans[k]) then 1 else 0)
  {
    Count_Snoc(NeedsShippingTypes, plans, k);
    Count_Snoc(NeedsStorageTypes, plans, k);
    Count_Snoc(GetsFee, plans, k);
    Count_Snoc(GetsOriginal, plans, k);
  }

  /** The map callback: the copy and which counters it moves. */
  method FixOne(plan: PlanRecord, now: int) returns (fixed: PlanRecord, types: bool, storage: bool, fee: bool, original: bool)
    ensures fixed == FixPlan(plan, now)
    ensures types == NeedsShippingTypes(plan) && storage == NeedsStorageTypes(plan)
    ensures fee == GetsFee(plan) && original == GetsOriginal(plan)
  {
    var shippingTypes, storageTypes, shippingFee, priceOriginal := plan.shippingTypes, plan.storageTypes, plan.shippingFee, plan.priceOriginal;
    types, storage, fee, original := false, false, false, false;
    if shippingTypes.None? || shippingTypes.value == [] {
      shippingTypes := Some(InferShippingTypes(plan));
      types := true;
    }
    if storageTypes.None? || storageTypes.value == [] {
      storageTypes := Some(InferStorageTypes(plan));
      storage := true;
    }
    if shippingFee.None? {
      var inferred := InferShippingFee(plan);
      if inferred.Some? {
        shippingFee := inferred;
        fee := true;
      }
    }
    if !NumTruthy(priceOriginal) && NumTruthy(plan.priceDiscount) {
      if AnyIn(Join(OrEmpty(plan.tags), " "), PromoWords) {
        priceOriginal := Some(EstimateOriginal(plan.priceDiscount.value));
        original := true;
      }
    }
    fixed := plan.(shippingTypes := shippingTypes, storageTypes := storageTypes, shippingFee := shippingFee,
                   priceOriginal := priceOriginal, updatedAt := now);
  }

  /** `main()`: every record fixed and restamped, with the counters. */
  method Fix(plans: seq<PlanRecord>, now: int) returns (out: seq<PlanRecord>, stats: Stats)
    ensures |out| == |plans|
    ensures forall k :: 0 <= k < |plans| ==> out[k] == FixPlan(plans[k], now)
    ensures stats == StatsOf(plans)
  {
    out, stats := [], Stats(0, 0, 0, 0);
    for k := 0 to |plans|
      invariant FixedUpTo(plans, out, k, now)
      invariant stats == StatsOf(plans[..k])
    {
      FixedUpTo_Step(plans, out, k, now);
      StatsOf_Step(plans, k);
      var fixed, types, storage, fee, original := FixOne(plans[k], now);
      stats := Stats(stats.addedShippingTypes + (if types then 1 else 0), stats.addedStorageTypes + (if storage then 1 else 0),
                     stats.addedShippingFee + (if fee then 1 else 0), stats.fixedOriginalPrice + (if original then 1 else 0));
      out := out + [fixed];
    }
    assert plans[..|plans|] == plans;
  }
}

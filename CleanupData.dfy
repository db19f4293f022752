/** scripts/cleanup-data.js: drops the records that lack a usable vendor
    name, title or price, then fills the classification, shipping and
    storage fields a kept record lacks, in place. The clock is `now`. */
module CleanupData {
  import opened Common
  import opened PlanRecords

  /** The vendor keyword table of this script; unlike add-plans.js its
      hotel keywords end with 'THE上海'. */
  const VendorRules: Rules := [
    ("hotel", ["飯店", "酒店", "Hotel", "hotel", "凱悅", "Hyatt", "晶華", "寒舍", "喜來登", "萬豪", "希爾頓", "香格里拉", "遠東", "文華東方", "君悅", "W飯店", "老爺", "福華", "凱達", "翰品", "日航", "福容", "美福", "維多麗亞", "凱撒", "華泰", "耐斯王子", "誠品行旅", "晶英", "萬怡", "長榮", "圓山", "國賓", "THE上海"]),
    ("restaurant", ["餐廳", "餐館", "料理", "菜", "樓", "園", "軒", "坊", "閣", "居", "苑", "欣葉", "青葉", "金蓬萊", "彭園", "點水樓", "鼎泰豐", "海霸王", "糖朝", "紅豆食府", "度小月", "周氏蝦捲", "林聰明", "阿基師", "山海樓", "逸湘齋"]),
    ("brand", ["老協珍", "王品", "大成", "卜蜂", "義美", "台酒", "郭元益", "金格", "裕珍馨", "正官庄", "福記", "呷七碗", "漁季", "富霸王", "廚鮮食代", "芳葉", "阿舍"]),
    ("convenience", ["7-ELEVEN", "7-11", "全家", "萊爾富", "OK超商", "Hi-Life"]),
    ("hypermarket", ["全聯", "家樂福", "Costco", "好市多", "大潤發", "愛買", "PX Mart", "pxmart"]),
    ("vegetarian", ["素食", "蔬食", "素", "齋", "養心", "祥和", "禪廚", "遇上素", "蔡老師蔬食"])
  ]

  /** A record the fill loop changes: one of the five classifications is
      falsy, or the shipping or storage list is missing. */
  predicate NeedsFix(p: PlanRecord) {
    !Truthy(p.vendorType) || !Truthy(p.productType) || !Truthy(p.cuisineStyle)
    || !Truthy(p.priceLevel) || !Truthy(p.familySize)
    || p.shippingTypes.None? || p.storageTypes.None?
  }

  /** How many of the records need a fix. */
  function FixCount(ps: seq<PlanRecord>): (n: nat)
    ensures n <= |ps|
  {
    if ps == [] then 0 else FixCount(ps[..|ps| - 1]) + (if NeedsFix(ps[|ps| - 1]) then 1 else 0)
  }

  /** The shipping list of a record that has none: both ways for 'both',
      else its shipping type or 'delivery'. */
  function DefaultShippingTypes(shippingType: Option<string>): (r: seq<string>)
    ensures r != []
  {
    if shippingType == Some("both") then ["delivery", "pickup"] else [OrText(shippingType, "delivery")]
  }

  /** `t || v`: a truthy field is kept, a falsy one replaced. */
  function OrFill(t: Option<string>, v: string): (r: Option<string>)
    ensures Truthy(t) ==> r == t
    ensures !Truthy(t) ==> r == Some(v)
  {
    if Truthy(t) then t else Some(v)
  }

  /** One record after the fill loop body. */
  function Filled(p: PlanRecord, now: int): (r: PlanRecord)
    ensures r.id == p.id && Key(r) == Key(p)
  {
    var vendor := p.vendorName.GetOr("");
    var title := p.title.GetOr("");
    var tags := OrEmpty(p.tags);
    p.(vendorType := OrFill(p.vendorType, DetectVendorType(VendorRules, vendor, tags)),
       productType := OrFill(p.productType, DetectProductType(title, OrEmpty(p.dishes))),
       cuisineStyle := OrFill(p.cuisineStyle, DetectCuisineStyle(tags, vendor, title)),
       priceLevel := OrFill(p.priceLevel, CalculatePriceLevel(p.priceDiscount.GetOr(0))),
       familySize := OrFill(p.familySize, CalculateFamilySize(p.servingsMin, p.servingsMax)),
       shippingTypes := if p.shippingTypes.Some? then p.shippingTypes else Some(DefaultShippingTypes(p.shippingType)),
       storageTypes := if p.storageTypes.Some? then p.storageTypes else Some([OrText(p.storageType, "frozen")]),
       updatedAt := if NeedsFix(p) then now else p.updatedAt)
  }

  /** Present values are never changed; only the seven filled fields and
      the update instant can differ, and the instant changes only for a
      record that needed a fix. */
  lemma Filled_Keeps(p: PlanRecord, now: int)
    ensures Truthy(p.vendorType) ==> Filled(p, now).vendorType == p.vendorType
    ensures Truthy(p.productType) ==> Filled(p, now).productType == p.productType
    ensures Truthy(p.cuisineStyle) ==> Filled(p, now).cuisineStyle == p.cuisineStyle
    ensures Truthy(p.priceLevel) ==> Filled(p, now).priceLevel == p.priceLevel
    ensures Truthy(p.familySize) ==> Filled(p, now).familySize == p.familySize
    ensures p.shippingTypes.Some? ==> Filled(p, now).shippingTypes == p.shippingTypes
    ensures p.storageTypes.Some? ==> Filled(p, now).storageTypes == p.storageTypes
    ensures Filled(p, now).(vendorType := p.vendorType, productType := p.productType, cuisineStyle := p.cuisineStyle,
                            priceLevel := p.priceLevel, familySize := p.familySize, shippingTypes := p.shippingTypes,
                            storageTypes := p.storageTypes, updatedAt := p.updatedAt) == p
    ensures Filled(p, now).updatedAt == (if NeedsFix(p) then now else p.updatedAt)
  {
  }

  /** A missing shipping list becomes [delivery, pickup] for 'both' and the
      shipping type or 'delivery' otherwise; a missing storage list becomes
      the storage type or 'frozen'. */
  lemma Filled_Lists(p: PlanRecord, now: int)
    ensures p.shippingTypes.None? && p.shippingType == Some("both") ==>
      Filled(p, now).shippingTypes == Some(["delivery", "pickup"])
    ensures p.shippingTypes.None? && p.shippingType != Some("both") ==>
      Filled(p, now).shippingTypes == Some([OrText(p.shippingType, "delivery")])
    ensures p.storageTypes.None? ==> Filled(p, now).storageTypes == Some([OrText(p.storageType, "frozen")])
  {
  }

  /** The vendor type detected is 'other' or a category of the table. */
  lemma DetectVendorType_Known(vendor: string, tags: seq<string>)
    ensures DetectVendorType(VendorRules, vendor, tags) in
      {"other", "hotel", "restaurant", "brand", "convenience", "hypermarket", "vegetarian"}
  {
    var r := DetectVendorType(VendorRules, vendor, tags);
    if r != "other" {
      var i :| 0 <= i < |VendorRules| && r == VendorRules[i].0;
    }
  }

  /** A record that needs no fix is left exactly as it is. */
  lemma Filled_NoFix(p: PlanRecord, now: int)
    requires !NeedsFix(p)
    ensures Filled(p, now) == p
  {
  }

  /** The detected vendor type is never empty. */
  lemma VendorType_NonEmpty(vendor: string, tags: seq<string>)
    ensures DetectVendorType(VendorRules, vendor, tags) != ""
  {
    var r := DetectVendorType(VendorRules, vendor, tags);
    if r != "other" {
      var i :| 0 <= i < |VendorRules| && r == VendorRules[i].0;
      assert |VendorRules[i].0| > 0;
    }
  }

  /** Nor are the price level and the family size. */
  lemma Levels_NonEmpty(price: int, servingsMin: Option<int>, servingsMax: Option<int>)
    ensures CalculatePriceLevel(price) != ""
    ensures CalculateFamilySize(servingsMin, servingsMax) != ""
  {
    var l, f := CalculatePriceLevel(price), CalculateFamilySize(servingsMin, servingsMax);
    assert |l| > 0 && |f| > 0;
  }

  /** Nor are the detected cuisine style and product type. */
  lemma Classes_NonEmpty(p: PlanRecord)
    ensures DetectProductType(p.title.GetOr(""), OrEmpty(p.dishes)) != ""
    ensures DetectCuisineStyle(OrEmpty(p.tags), p.vendorName.GetOr(""), p.title.GetOr("")) != ""
  {
    var r := DetectCuisineStyle(OrEmpty(p.tags), p.vendorName.GetOr(""), p.title.GetOr(""));
    if r != "taiwanese" {
      var i :| 0 <= i < |CuisineRules| && r == CuisineRules[i].0;
      assert |CuisineRules[i].0| > 0;
    }
  }

  /** A filled record needs no further fix. */
  lemma Filled_Fixed(p: PlanRecord, now: int)
    ensures !NeedsFix(Filled(p, now))
  {
    VendorType_NonEmpty(p.vendorName.GetOr(""), OrEmpty(p.tags));
    Classes_NonEmpty(p);
    Levels_NonEmpty(p.priceDiscount.GetOr(0), p.servingsMin, p.servingsMax);
  }

  /** So a second run changes nothing. */
  lemma Filled_Idempotent(p: PlanRecord, now: int, later: int)
    ensures Filled(Filled(p, now), later) == Filled(p, now)
  {
    Filled_Fixed(p, now);
    Filled_NoFix(Filled(p, now), later);
  }

  /** The body of the fill loop for one record: each falsy field in turn,
      then the update instant when anything was filled. The fields are
      independent of one another, so they are gathered first and written
      together. */
  method FillOne(p: PlanRecord, now: int) returns (plan: PlanRecord, fixed: bool)
    ensures plan == Filled(p, now) && fixed == NeedsFix(p)
  {
    fixed := false;
    var vendor := p.vendorName.GetOr("");
    var title := p.title.GetOr("");
    var tags := OrEmpty(p.tags);
    var vendorType, productType, cuisineStyle, priceLevel, familySize := p.vendorType, p.productType, p.cuisineStyle, p.priceLevel, p.familySize;
    var shippingTypes, storageTypes := p.shippingTypes, p.storageTypes;
    if !Truthy(vendorType) {
      vendorType := Some(DetectVendorType(VendorRules, vendor, tags));
      fixed := true;
    }
    if !Truthy(productType) {
      productType := Some(DetectProductType(title, OrEmpty(p.dishes)));
      fixed := true;
    }
    if !Truthy(cuisineStyle) {
      cuisineStyle := Some(DetectCuisineStyle(tags, vendor, title));
      fixed := true;
    }
    if !Truthy(priceLevel) {
      priceLevel := Some(CalculatePriceLevel(p.priceDiscount.GetOr(0)));
      fixed := true;
    }
    if !Truthy(familySize) {
      familySize := Some(CalculateFamilySize(p.servingsMin, p.servingsMax));
      fixed := true;
    }
    if shippingTypes.None? {
      if p.shippingType == Some("both") {
        shippingTypes := Some(["delivery", "pickup"]);
      } else {
        shippingTypes := Some([OrText(p.shippingType, "delivery")]);
      }
      fixed := true;
    }
    if storageTypes.None? {
      storageTypes := Some([OrText(p.storageType, "frozen")]);
      fixed := true;
    }
    if fixed {
      plan := p.(vendorType := vendorType, productType := productType, cuisineStyle := cuisineStyle,
                 priceLevel := priceLevel, familySize := familySize, shippingTypes := shippingTypes,
                 storageTypes := storageTypes, updatedAt := now);
    } else {
      plan := p;
    }
  }

  /** The first `k` records are filled and the rest untouched. */
  ghost predicate FilledUpTo(plans: seq<PlanRecord>, filled: seq<PlanRecord>, k: nat, now: int) {
    |filled| == |plans| && k <= |plans|
    && (forall m :: 0 <= m < k ==> filled[m] == Filled(plans[m], now))
    && (forall m :: k <= m < |plans| ==> filled[m] == plans[m])
  }

  /** Filling record `k` in its place fills one more. */
  lemma FilledUpTo_Step(plans: seq<PlanRecord>, filled: seq<PlanRecord>, k: nat, now: int)
    requires k < |plans| && FilledUpTo(plans, filled, k, now)
    ensures filled[k] == plans[k]
    ensures FilledUpTo(plans, filled[k := Filled(plans[k], now)], k + 1, now)
  {
  }

  /** One more record raises the count by one exactly when it needs a
      fix. */
  lemma FixCount_Step(plans: seq<PlanRecord>, k: nat)
    requires k < |plans|
    ensures FixCount(plans[..k + 1]) == FixCount(plans[..k]) + (if NeedsFix(plans[k]) then 1 else 0)
  {
    assert plans[..k + 1][..k] == plans[..k];
  }

  /** The fill loop over the kept records: record `k` is rewritten in its
      place, and the records that needed a fix are counted. */
  method FillMissing(plans: seq<PlanRecord>, now: int) returns (filled: seq<PlanRecord>, fixedCount: nat)
    ensures |filled| == |plans|
    ensures forall k :: 0 <= k < |plans| ==> filled[k] == Filled(plans[k], now)
    ensures fixedCount == FixCount(plans)
  {
    filled, fixedCount := plans, 0;
    for k := 0 to |plans|
      invariant FilledUpTo(plans, filled, k, now)
      invariant fixedCount == FixCount(plans[..k])
    {
      FilledUpTo_Step(plans, filled, k, now);
      FixCount_Step(plans, k);
      var plan, fixed := FillOne(filled[k], now);
      if fixed {
        fixedCount := fixedCount + 1;
      }
      filled := filled[k := plan];
    }
    assert plans[..|plans|] == plans;
  }

  /** What main() writes and prints. */
  datatype Outcome = Outcome(plans: seq<PlanRecord>, removed: nat, fixedCount: nat)

  /** `main()` over the plan file: the valid records, each filled. */
  method Cleanup(plans: seq<PlanRecord>, now: int) returns (out: Outcome)
    ensures |out.plans| + out.removed == |plans|
    ensures |out.plans| == |Filter(Valid, plans)|
    ensures forall k :: 0 <= k < |out.plans| ==> out.plans[k] == Filled(Filter(Valid, plans)[k], now)
    ensures forall k :: 0 <= k < |out.plans| ==> Valid(out.plans[k])
    ensures out.fixedCount == FixCount(Filter(Valid, plans))
  {
    var valid := Filter(Valid, plans);
    var filled, fixedCount := FillMissing(valid, now);
    out := Outcome(filled, |plans| - |valid|, fixedCount);
    forall k | 0 <= k < |out.plans| ensures Valid(out.plans[k]) {
      Filled_Keeps(valid[k], now);
    }
  }
}

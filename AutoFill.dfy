/** scripts/auto-fill-missing-fields.js: three passes over the plan
    records, filling the shipping fee, the delivery distance and a dish
    suggestion, each logging one entry per filled record. */
module AutoFill {
  import opened Common
  import opened PlanRecords

  datatype Field = FeeField | DistanceField | DishesField

  /** One update-log entry: the record and the field filled. */
  datatype Entry = Entry(planId: string, field: Field)

  // --------------------------------------------------------------- the fee

  /** The default fee for a shipping type: home delivery 100 nationwide
      and 80 elsewhere, pickup nothing, both 50, anything else 0. */
  function DefaultFee(p: PlanRecord): (r: int)
    ensures r in {0, 50, 80, 100}
    ensures p.shippingType == Some("pickup") ==> r == 0
  {
    if p.shippingType == Some("delivery") then (if p.region == Some("nationwide") then 100 else 80)
    else if p.shippingType == Some("pickup") then 0
    else if p.shippingType == Some("both") then 50
    else 0
  }

  /** The fee pass's test as written: a falsy fee, so a fee of 0 counts as
      missing. */
  predicate NeedsFeeAsWritten(p: PlanRecord) {
    !NumTruthy(p.shippingFee)
  }

  /** The fee pass as written. */
  function FillFeeAsWritten(p: PlanRecord): (r: PlanRecord)
    ensures r == p.(shippingFee := r.shippingFee)
  {
    if NeedsFeeAsWritten(p) then p.(shippingFee := Some(DefaultFee(p))) else p
  }

  /** A nationwide home-delivery record that is free to ship (fee 0) is
      given a fee of 100, and it is logged as having had none. */
  lemma FillFeeAsWritten_OverwritesFree(p: PlanRecord)
    requires p.shippingFee == Some(0) && p.shippingType == Some("delivery") && p.region == Some("nationwide")
    ensures NeedsFeeAsWritten(p) && FillFeeAsWritten(p).shippingFee == Some(100)
  {}

  /** The fee pass as meant: only a record with no fee at all. */
  predicate NeedsFee(p: PlanRecord) {
    p.shippingFee.None?
  }

  // ------------------------------------------------------------ distances

  /** The region table of lines 62-81 as written: its island key is
      'offshore', a region name the app never uses. */
  function RegionDistanceAsWritten(region: string): (r: int) {
    if region == "north" then 100
    else if region == "central" then 150
    else if region == "south" then 200
    else if region == "east" then 250
    else if region == "offshore" then 300
    else 999
  }

  /** An island record ('islands', the app's name for 澎湖, 金門 and 馬祖)
      falls through to 999 instead of the 300 the table holds for islands. */
  lemma RegionDistanceAsWritten_Islands()
    ensures RegionDistanceAsWritten("islands") == 999
  {}

  /** The region table with the app's island key. */
  function RegionDistance(region: string): (r: int)
    ensures r in {100, 150, 200, 250, 300, 999}
  {
    if region == "north" then 100
    else if region == "central" then 150
    else if region == "south" then 200
    else if region == "east" then 250
    else if region == "islands" then 300
    else 999
  }

  /** Each of the app's regions gets its own distance, nearer regions less,
      and nationwide the 999 that stands for no limit. */
  lemma RegionDistance_Regions()
    ensures RegionDistance("north") < RegionDistance("central") < RegionDistance("south")
      < RegionDistance("east") < RegionDistance("islands") < RegionDistance("nationwide") == 999
  {}

  /** The distance pass applies to a record with a falsy distance that is
      not pickup-only. */
  predicate NeedsDistance(p: PlanRecord) {
    !NumTruthy(p.maxDistance) && p.shippingType != Some("pickup")
  }

  /** The distance of lines 53-82: 999 when the areas or the region say
      nationwide or there is no region, else the region's entry. */
  function DistanceFor(p: PlanRecord): (r: int)
    ensures r in {100, 150, 200, 250, 300, 999}
  {
    var areas := OrEmpty(p.deliveryAreas);
    if |areas| > 0 && ("nationwide" in areas || p.region == Some("nationwide")) then 999
    else if Truthy(p.region) then RegionDistance(p.region.value)
    else 999
  }

  /** The exact rule: nationwide areas force 999; otherwise the region
      decides, with 999 for none. */
  lemma DistanceFor_Rule(p: PlanRecord)
    ensures Has(p.deliveryAreas, "nationwide") ==> DistanceFor(p) == 999
    ensures !Has(p.deliveryAreas, "nationwide") ==> DistanceFor(p) == (if Truthy(p.region) then RegionDistance(p.region.value) else 999)
  {}

  // --------------------------------------------------------------- dishes

  /** The dish pass applies to a record with no dishes and some tags. */
  predicate NeedsDishes(p: PlanRecord) {
    (p.dishes.None? || p.dishes.value == []) && p.tags.Some? && p.tags.value != []
  }

  /** Three typical dishes for the first matching tag group, Taiwanese by
      default. */
  function SuggestedDishes(tags: seq<string>): (r: seq<string>)
    ensures |r| == 3
  {
    if "粵式" in tags || "港式" in tags then ["佛跳牆", "紅燒肉", "清蒸魚"]
    else if "川菜" in tags || "湘菜" in tags then ["麻辣香鍋", "回鍋肉", "水煮牛肉"]
    else if "日式" in tags then ["壽司拼盤", "握壽司", "生魚片"]
    else if "素食" in tags then ["素炒米粉", "素肉捲", "香菇雞湯"]
    else ["年夜飯套餐", "整隻雞", "海鮮湯"]
  }

  /** A vegetarian tag gets vegetarian dishes unless a cuisine tag comes
      first in the order of the groups. */
  lemma SuggestedDishes_Order(tags: seq<string>)
    ensures "粵式" in tags ==> SuggestedDishes(tags)[0] == "佛跳牆"
    ensures "素食" in tags && !("粵式" in tags || "港式" in tags || "川菜" in tags || "湘菜" in tags || "日式" in tags) ==>
      SuggestedDishes(tags) == ["素炒米粉", "素肉捲", "香菇雞湯"]
  {}

  // ------------------------------------------------------------ the passes

  predicate Needs(f: Field, p: PlanRecord) {
    match f
    case FeeField => NeedsFee(p)
    case DistanceField => NeedsDistance(p)
    case DishesField => NeedsDishes(p)
  }

  /** One record after one pass. */
  function Fill(f: Field, p: PlanRecord): (r: PlanRecord)
    ensures r.id == p.id
  {
    if !Needs(f, p) then p
    else match f
      case FeeField => p.(shippingFee := Some(DefaultFee(p)))
      case DistanceField => p.(maxDistance := Some(DistanceFor(p)))
      case DishesField => p.(dishes := Some(SuggestedDishes(p.tags.value)))
  }

  /** A pass touches only its own field and only records that need it,
      after which they no longer do (the distance pass never yields 0). */
  lemma Fill_Rule(f: Field, p: PlanRecord)
    ensures !Needs(f, p) ==> Fill(f, p) == p
    ensures f == FeeField ==> Fill(f, p) == p.(shippingFee := Fill(f, p).shippingFee)
    ensures f == DistanceField ==> Fill(f, p) == p.(maxDistance := Fill(f, p).maxDistance)
    ensures f == DishesField ==> Fill(f, p) == p.(dishes := Fill(f, p).dishes)
    ensures !Needs(f, Fill(f, p))
  {}

  /** A fee already present, including 0, survives the pass. */
  lemma Fill_KeepsFee(p: PlanRecord)
    requires p.shippingFee.Some?
    ensures Fill(FeeField, p).shippingFee == p.shippingFee
  {}

  function Pass(f: Field, ps: seq<PlanRecord>): (r: seq<PlanRecord>)
    ensures |r| == |ps|
  {
    seq(|ps|, i requires 0 <= i < |ps| => Fill(f, ps[i]))
  }

  /** The entries one pass logs: one per record that needed the field, in
      order. */
  function Logged(f: Field, ps: seq<PlanRecord>): (r: seq<Entry>)
    ensures |r| <= |ps|
  {
    if ps == [] then [] else Logged(f, ps[..|ps| - 1]) + (if Needs(f, ps[|ps| - 1]) then [Entry(ps[|ps| - 1].id, f)] else [])
  }

  /** Every logged entry names a record of the list that needed the field. */
  lemma {:induction false} Logged_Sound(f: Field, ps: seq<PlanRecord>, e: Entry)
    requires e in Logged(f, ps)
    ensures e.field == f && exists i :: 0 <= i < |ps| && ps[i].id == e.planId && Needs(f, ps[i])
  {
    var init := ps[..|ps| - 1];
    if e in Logged(f, init) {
      Logged_Sound(f, init, e);
      var i :| 0 <= i < |init| && init[i].id == e.planId && Needs(f, init[i]);
      assert ps[i] == init[i];
    } else {
      assert ps[|ps| - 1].id == e.planId;
    }
  }

  /** A pass logs exactly as many entries as there are records needing it. */
  lemma {:induction false} Logged_Count(f: Field, ps: seq<PlanRecord>)
    ensures |Logged(f, ps)| == Count((p: PlanRecord) => Needs(f, p), ps)
  {
    if ps != [] {
      var init := ps[..|ps| - 1];
      Logged_Count(f, init);
      assert ps == init + [ps[|ps| - 1]];
      Count_Append((p: PlanRecord) => Needs(f, p), init, [ps[|ps| - 1]]);
    }
  }

  /** Running a pass a second time fills and logs nothing. */
  lemma {:induction false} Pass_Settles(f: Field, ps: seq<PlanRecord>)
    ensures Pass(f, Pass(f, ps)) == Pass(f, ps)
    ensures Logged(f, Pass(f, ps)) == []
  {
    if ps != [] {
      var init := ps[..|ps| - 1];
      Pass_Settles(f, init);
      assert Pass(f, ps)[..|ps| - 1] == Pass(f, init);
      Fill_Rule(f, ps[|ps| - 1]);
    }
    forall i | 0 <= i < |ps| ensures Fill(f, Pass(f, ps)[i]) == Pass(f, ps)[i] {
      Fill_Rule(f, ps[i]);
    }
  }

  ghost predicate FilledUpTo(f: Field, before: seq<PlanRecord>, plans: seq<PlanRecord>, k: nat) {
    |plans| == |before| && k <= |before|
    && (forall m :: 0 <= m < k ==> plans[m] == Fill(f, before[m]))
    && (forall m :: k <= m < |before| ==> plans[m] == before[m])
  }

  lemma FilledUpTo_Step(f: Field, before: seq<PlanRecord>, plans: seq<PlanRecord>, k: nat)
    requires k < |before| && FilledUpTo(f, before, plans, k)
    ensures plans[k] == before[k]
    ensures FilledUpTo(f, before, plans[k := Fill(f, before[k])], k + 1)
  {}

  lemma Logged_Step(f: Field, ps: seq<PlanRecord>, k: nat)
    requires k < |ps|
    ensures Logged(f, ps[..k + 1]) == Logged(f, ps[..k]) + (if Needs(f, ps[k]) then [Entry(ps[k].id, f)] else [])
  {
    assert ps[..k + 1][..k] == ps[..k];
  }

  /** One `forEach` pass, assigning in place and logging. */
  method RunPass(f: Field, plans: seq<PlanRecord>) returns (out: seq<PlanRecord>, log: seq<Entry>)
    ensures out == Pass(f, plans)
    ensures log == Logged(f, plans)
  {
    out, log := plans, [];
    for k := 0 to |plans|
      invariant FilledUpTo(f, plans, out, k)
      invariant log == Logged(f, plans[..k])
    {
      FilledUpTo_Step(f, plans, out, k);
      Logged_Step(f, plans, k);
      var plan := out[k];
      if Needs(f, plan) {
        out := out[k := Fill(f, plan)];
        log := log + [Entry(plan.id, f)];
      }
    }
    assert plans[..|plans|] == plans;
  }

  /** The script: fees, then distances, then dishes; the three counters
      are the lengths of the three passes' logs. */
  method AutoFillAll(plans: seq<PlanRecord>) returns (out: seq<PlanRecord>, updated: nat, distanceUpdated: nat,
                                                      dishesUpdated: nat, updateLog: seq<Entry>)
    ensures out == Pass(DishesField, Pass(DistanceField, Pass(FeeField, plans)))
    ensures updateLog == Logged(FeeField, plans) + Logged(DistanceField, Pass(FeeField, plans))
      + Logged(DishesField, Pass(DistanceField, Pass(FeeField, plans)))
    ensures updated == |Logged(FeeField, plans)| && distanceUpdated == |Logged(DistanceField, Pass(FeeField, plans))|
    ensures dishesUpdated == |Logged(DishesField, Pass(DistanceField, Pass(FeeField, plans)))|
    ensures |updateLog| == updated + distanceUpdated + dishesUpdated
  {
    var afterFees, feeLog := RunPass(FeeField, plans);
    var afterDistances, distanceLog := RunPass(DistanceField, afterFees);
    var afterDishes, dishLog := RunPass(DishesField, afterDistances);
    out := afterDishes;
    updated, distanceUpdated, dishesUpdated := |feeLog|, |distanceLog|, |dishLog|;
    updateLog := feeLog + distanceLog + dishLog;
  }
}

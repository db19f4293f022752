/** scripts/import-niantsai.js: imports the season's records as drafts,
    skipping any whose `vendorName::title` key the plan file already
    holds. The random part of the generated ids is a parameter. */
module ImportNiantsai {
  import opened Common
  import opened PlanRecords

  /** An item is new when its key is not among the existing plans' keys. */
  predicate IsNew(keys: set<string>, item: PlanRecord) {
    Key(item) !in keys
  }

  /** `n || null` on a number field. */
  function NumOrNull(o: Option<int>): (r: Option<int>)
    ensures NumTruthy(o) ==> r == o
    ensures !NumTruthy(o) ==> r.None?
  {
    if NumTruthy(o) then o else None
  }

  /** `s || null` on a string field. */
  function TextOrNull(o: Option<string>): (r: Option<string>)
    ensures Truthy(o) ==> r == o
    ensures !Truthy(o) ==> r.None?
  {
    if Truthy(o) then o else None
  }

  /** The plan built for the `index`-th new item (lines 52-83): supplied
      values where truthy, the script's defaults otherwise, status
      'draft'. The record keeps only the fields the scripts read back:
      `vendorId`, `images`, `pickupPoints`, `address`, `fulfillEnd`,
      `canSelectDate` and `allergens`, which the script also writes, are
      not part of the model. */
  function ToPlan(item: PlanRecord, index: nat, stamp: string, now: int): (r: PlanRecord)
    ensures r.vendorName == item.vendorName && r.title == item.title && r.priceDiscount == item.priceDiscount
  {
    var servingsMin := if NumTruthy(item.servingsMin) then item.servingsMin.value else 4;
    var servingsMax :=
      if NumTruthy(item.servingsMax) then item.servingsMax.value
      else if NumTruthy(item.servingsMin) then item.servingsMin.value
      else 4;
    PlanRecord(
      id := stamp + "_" + NatToString(index),
      vendorName := item.vendorName,
      title := item.title,
      description := Some(OrText(item.description, "")),
      imageUrl := Some(OrText(item.imageUrl, "")),
      priceOriginal := NumOrNull(item.priceOriginal),
      priceDiscount := item.priceDiscount,
      shippingFee := NumOrNull(item.shippingFee),
      shippingType := Some(OrText(item.shippingType, "delivery")),
      shippingTypes := None,
      storageType := Some(OrText(item.storageType, "frozen")),
      storageTypes := None,
      deliveryAreas := Some(OrEmpty(item.deliveryAreas)),
      region := Some(OrText(item.region, "nationwide")),
      city := TextOrNull(item.city),
      servingsMin := Some(servingsMin),
      servingsMax := Some(servingsMax),
      orderDeadline := TextOrNull(item.orderDeadline),
      fulfillStart := TextOrNull(item.fulfillStart),
      tags := Some(OrEmpty(item.tags)),
      dishes := Some(OrEmpty(item.dishes)),
      vendorType := None, productType := None, cuisineStyle := None, priceLevel := None, familySize := None,
      maxDistance := None,
      sourceUrl := Some(OrText(item.sourceUrl, "")),
      status := Some("draft"),
      duplicateOf := None,
      createdAt := now,
      updatedAt := now)
  }

  /** New plans wait for review as drafts; servings default to 4 with the
      maximum falling back to the minimum; the region defaults to
      nationwide; the key is the item's. */
  lemma ToPlan_Defaults(item: PlanRecord, index: nat, stamp: string, now: int)
    ensures ToPlan(item, index, stamp, now).status == Some("draft")
    ensures ToPlan(item, index, stamp, now).servingsMin == Some(if NumTruthy(item.servingsMin) then item.servingsMin.value else 4)
    ensures !NumTruthy(item.servingsMax) ==> ToPlan(item, index, stamp, now).servingsMax == ToPlan(item, index, stamp, now).servingsMin
    ensures NumTruthy(item.servingsMax) ==> ToPlan(item, index, stamp, now).servingsMax == item.servingsMax
    ensures !Truthy(item.region) ==> ToPlan(item, index, stamp, now).region == Some("nationwide")
    ensures Truthy(item.region) ==> ToPlan(item, index, stamp, now).region == item.region
    ensures Key(ToPlan(item, index, stamp, now)) == Key(item)
  {}

  /** The new items, in input order. */
  function Fresh(keys: set<string>, items: seq<PlanRecord>): (r: seq<PlanRecord>)
    ensures |r| <= |items|
  {
    Filter((item: PlanRecord) => IsNew(keys, item), items)
  }

  /** An item is imported exactly when it came in and its key is new. */
  lemma Fresh_Mem(keys: set<string>, items: seq<PlanRecord>, item: PlanRecord)
    ensures item in Fresh(keys, items) <==> item in items && Key(item) !in keys
  {
    Filter_Mem((item: PlanRecord) => IsNew(keys, item), items, item);
  }

  function NewPlans(news: seq<PlanRecord>, stamp: string, now: int): (r: seq<PlanRecord>)
    ensures |r| == |news|
  {
    seq(|news|, i requires 0 <= i < |news| => ToPlan(news[i], i, stamp, now))
  }

  /** The filter with its skip counter, then the map and the merge. */
  method Import(existing: seq<PlanRecord>, items: seq<PlanRecord>, stamp: string, now: int)
    returns (allPlans: seq<PlanRecord>, newPlans: seq<PlanRecord>, skipped: nat)
    ensures newPlans == NewPlans(Fresh(Keys(existing), items), stamp, now)
    ensures skipped + |newPlans| == |items|
    ensures allPlans == existing + newPlans
    ensures forall i :: 0 <= i < |newPlans| ==> Key(newPlans[i]) !in Keys(existing)
  {
    var existingKeys := Keys(existing);
    var kept: seq<PlanRecord> := [];
    skipped := 0;
    for k := 0 to |items|
      invariant kept == Fresh(existingKeys, items[..k])
      invariant skipped + |kept| == k
    {
      var item := items[k];
      assert items[..k + 1] == items[..k] + [item];
      Filter_Append((item: PlanRecord) => IsNew(existingKeys, item), items[..k], [item]);
      if Key(item) in existingKeys {
        skipped := skipped + 1;
      } else {
        kept := kept + [item];
      }
    }
    assert items[..|items|] == items;
    newPlans := NewPlans(kept, stamp, now);
    allPlans := existing + newPlans;
    forall i | 0 <= i < |newPlans| ensures Key(newPlans[i]) !in Keys(existing) {
      ToPlan_Defaults(kept[i], i, stamp, now);
    }
  }
}

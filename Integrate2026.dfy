/** scripts/integrate-2026-data.js: appends the new season's records to
    the plan file, skipping any that match an existing record on vendor,
    title and price, and filling three labels the new record lacks. */
module Integrate2026 {
  import opened Common
  import opened PlanRecords

  /** `isDuplicate(newPlan, existingPlans)`. */
  predicate IsDuplicate(p: PlanRecord, existing: seq<PlanRecord>) {
    exists i :: 0 <= i < |existing|
      && existing[i].vendorName == p.vendorName && existing[i].title == p.title
      && existing[i].priceDiscount == p.priceDiscount
  }

  /** `detectVendorType(vendorName)`, 'brand' when no word matches. */
  function VendorTypeOf(name: string): (r: string)
    ensures r in {"hotel", "restaurant", "convenience", "supermarket", "vegetarian", "brand"}
  {
    if Contains(name, "飯店") || Contains(name, "酒店") || Contains(name, "宴會") then "hotel"
    else if Contains(name, "餐廳") || Contains(name, "美食") then "restaurant"
    else if Contains(name, "便利") then "convenience"
    else if Contains(name, "超市") || Contains(name, "量販") then "supermarket"
    else if Contains(name, "素") then "vegetarian"
    else "brand"
  }

  /** `detectProductType(title, dishes)`: a set or combination title wins;
      no dishes or exactly one makes a single item; 'combo' otherwise. */
  function ProductTypeOf(title: string, dishes: Option<seq<string>>): (r: string)
    ensures r in {"combo", "single", "dessert", "gift_box", "soup"}
    ensures (dishes.None? || |dishes.value| == 1) && !Contains(title, "套餐") && !Contains(title, "組合") ==> r == "single"
  {
    if Contains(title, "套餐") || Contains(title, "組合") then "combo"
    else if Contains(title, "單品") || dishes.None? || |dishes.value| == 1 then "single"
    else if Contains(title, "甜點") || Contains(title, "點心") then "dessert"
    else if Contains(title, "禮盒") then "gift_box"
    else if Contains(title, "湯") then "soup"
    else "combo"
  }

  /** `detectCuisineStyle(tags)` on the tags run together. */
  function CuisineStyleOf(tags: seq<string>): (r: string)
    ensures r in {"cantonese", "shanghai", "sichuan", "japanese", "vegetarian", "fusion", "western", "taiwanese"}
  {
    var t := Lower(Join(tags, ""));
    if Contains(t, "粵") || Contains(t, "港") then "cantonese"
    else if Contains(t, "上海") then "shanghai"
    else if Contains(t, "川") || Contains(t, "湘") then "sichuan"
    else if Contains(t, "日") then "japanese"
    else if Contains(t, "素") then "vegetarian"
    else if Contains(t, "創") then "fusion"
    else if Contains(t, "西") then "western"
    else "taiwanese"
  }

  /** With no tags the style defaults to Taiwanese, and an unremarkable
      vendor name to 'brand'. */
  lemma Detect_Defaults()
    ensures CuisineStyleOf([]) == "taiwanese"
    ensures VendorTypeOf("") == "brand"
  {
    assert Join([], "") == "";
    assert Lower("") == "";
  }

  /** The counters a new record starts with. */
  datatype Addition = Addition(plan: PlanRecord, views: nat, rating: int, ratingCount: nat)

  /** What is logged for a skipped record. */
  datatype DuplicateNote = DuplicateNote(vendor: Option<string>, title: Option<string>, price: Option<int>)

  /** `enrichedPlan` for the record at `idx` of the new data. */
  function Enriched(p: PlanRecord, idx: nat, now: int): (r: Addition)
    ensures r.plan.vendorName == p.vendorName && r.plan.title == p.title && r.plan.priceDiscount == p.priceDiscount
  {
    Addition(p.(id := "plan_" + IntToString(now) + "_" + NatToString(idx),
                status := Some("published"),
                vendorType := if Truthy(p.vendorType) then p.vendorType else Some(VendorTypeOf(p.vendorName.GetOr(""))),
                productType := if Truthy(p.productType) then p.productType else Some(ProductTypeOf(p.title.GetOr(""), p.dishes)),
                cuisineStyle := if Truthy(p.cuisineStyle) then p.cuisineStyle else Some(CuisineStyleOf(OrEmpty(p.tags))),
                createdAt := now, updatedAt := now),
             0, 0, 0)
  }

  /** A new record is published with zeroed counters; a supplied label
      wins over the detected one, and every other field is the supplied
      one. */
  lemma Enriched_Fields(p: PlanRecord, idx: nat, now: int)
    ensures var a := Enriched(p, idx, now);
      a.plan.status == Some("published") && a.views == 0 && a.rating == 0 && a.ratingCount == 0
      && a.plan.createdAt == now && a.plan.updatedAt == now
    ensures Truthy(p.vendorType) ==> Enriched(p, idx, now).plan.vendorType == p.vendorType
    ensures Truthy(p.productType) ==> Enriched(p, idx, now).plan.productType == p.productType
    ensures Truthy(p.cuisineStyle) ==> Enriched(p, idx, now).plan.cuisineStyle == p.cuisineStyle
    ensures Truthy(Enriched(p, idx, now).plan.vendorType) && Truthy(Enriched(p, idx, now).plan.productType)
      && Truthy(Enriched(p, idx, now).plan.cuisineStyle)
    ensures var q := Enriched(p, idx, now).plan;
      q == p.(id := q.id, status := q.status, vendorType := q.vendorType, productType := q.productType,
              cuisineStyle := q.cuisineStyle, createdAt := now, updatedAt := now)
  {
    var v, t, c := VendorTypeOf(p.vendorName.GetOr("")), ProductTypeOf(p.title.GetOr(""), p.dishes), CuisineStyleOf(OrEmpty(p.tags));
    assert |v| > 0 && |t| > 0 && |c| > 0;
  }

  /** Records of the new data are numbered by their place there, so two
      additions never share an id. */
  lemma Enriched_Ids(p: PlanRecord, q: PlanRecord, i: nat, j: nat, now: int)
    requires i != j
    ensures Enriched(p, i, now).plan.id != Enriched(q, j, now).plan.id
  {
    var prefix := "plan_" + IntToString(now) + "_";
    var a, b := prefix + NatToString(i), prefix + NatToString(j);
    if a == b {
      assert a[|prefix|..] == NatToString(i);
      assert b[|prefix|..] == NatToString(j);
      ParseNat_NatToString(i);
      ParseNat_NatToString(j);
    }
  }

  /** The additions and the duplicate notes for the first `n` new records. */
  function ToAdd(existing: seq<PlanRecord>, incoming: seq<PlanRecord>, n: nat, now: int): (r: seq<Addition>)
    requires n <= |incoming|
    ensures |r| <= n
  {
    if n == 0 then []
    else
      var p := incoming[n - 1];
      ToAdd(existing, incoming, n - 1, now) + (if IsDuplicate(p, existing) then [] else [Enriched(p, n - 1, now)])
  }

  function Duplicates(existing: seq<PlanRecord>, incoming: seq<PlanRecord>, n: nat): (r: seq<DuplicateNote>)
    requires n <= |incoming|
  {
    if n == 0 then []
    else
      var p := incoming[n - 1];
      Duplicates(existing, incoming, n - 1)
      + (if IsDuplicate(p, existing) then [DuplicateNote(p.vendorName, p.title, p.priceDiscount)] else [])
  }

  /** Every new record is either added or noted as a duplicate. */
  lemma {:induction false} Split_Count(existing: seq<PlanRecord>, incoming: seq<PlanRecord>, n: nat, now: int)
    requires n <= |incoming|
    ensures |ToAdd(existing, incoming, n, now)| + |Duplicates(existing, incoming, n)| == n
  {
    if n > 0 {
      Split_Count(existing, incoming, n - 1, now);
    }
  }

  /** No addition matches an existing record. */
  lemma {:induction false} ToAdd_Fresh(existing: seq<PlanRecord>, incoming: seq<PlanRecord>, n: nat, now: int)
    requires n <= |incoming|
    ensures forall a :: a in ToAdd(existing, incoming, n, now) ==> !IsDuplicate(a.plan, existing)
  {
    if n > 0 {
      ToAdd_Fresh(existing, incoming, n - 1, now);
    }
  }

  /** Plans of the additions, in order. */
  function Plans(adds: seq<Addition>): (r: seq<PlanRecord>)
    ensures |r| == |adds| && forall i :: 0 <= i < |adds| ==> r[i] == adds[i].plan
  {
    seq(|adds|, i requires 0 <= i < |adds| => adds[i].plan)
  }

  /** The `forEach` over the new records and the merge: the existing
      records untouched, then the additions. */
  method Integrate(existing: seq<PlanRecord>, incoming: seq<PlanRecord>, now: int)
    returns (merged: seq<PlanRecord>, toAdd: seq<Addition>, duplicates: seq<DuplicateNote>)
    ensures toAdd == ToAdd(existing, incoming, |incoming|, now)
    ensures duplicates == Duplicates(existing, incoming, |incoming|)
    ensures merged == existing + Plans(toAdd)
    ensures merged[..|existing|] == existing
    ensures |merged| == |existing| + |incoming| - |duplicates|
  {
    toAdd, duplicates := [], [];
    for idx := 0 to |incoming|
      invariant toAdd == ToAdd(existing, incoming, idx, now)
      invariant duplicates == Duplicates(existing, incoming, idx)
    {
      var plan := incoming[idx];
      if IsDuplicate(plan, existing) {
        duplicates := duplicates + [DuplicateNote(plan.vendorName, plan.title, plan.priceDiscount)];
      } else {
        toAdd := toAdd + [Enriched(plan, idx, now)];
      }
    }
    Split_Count(existing, incoming, |incoming|, now);
    merged := existing + Plans(toAdd);
  }
}

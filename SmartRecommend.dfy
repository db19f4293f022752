/** The recommendation banner above the plan list: the quick presets, the
    five-entry top lists computed from the published plans, the price span
    and the "show these plans" button of a top list. */
module SmartRecommend {
  import opened Common
  import opened Types
  import opened Sorting
  import opened UiFilters
  import PlanStore
  import CompareModal

  /** The quick presets of `QUICK_PRESETS`, in their display order. */
  datatype Preset = BestValuePreset | SmallFamilyPreset | HotelPreset | FrozenDeliveryPreset
                  | VegetarianPreset | BudgetPreset

  const VegetarianTags: seq<string> := ["素食", "全素", "蛋奶素"]

  /** `resetFilters()` then `setFilters({ ...preset.filter, onlyPublished: true })`. */
  function PresetFilters(q: Preset): (f: Filters)
    ensures f.onlyPublished == Some(true)
  {
    var d := ResetPublished();
    match q
    case BestValuePreset => d.(pricePerPersonMax := Some(500))
    case SmallFamilyPreset => d.(servingsMax := Some(4))
    case HotelPreset => d.(vendorType := Some(Only(Hotel)))
    case FrozenDeliveryPreset => d.(storageType := Some(Only(Frozen)), shippingType := Some(Only(Delivery)))
    case VegetarianPreset => d.(tags := Some(VegetarianTags), tagLogic := Some(PlanStore.Or))
    case BudgetPreset => d.(priceMax := Some(2000))
  }

  /** `handlePresetClick(preset)`: clicking the active preset clears the
      filters and the highlight; any other click applies the preset on
      fresh filters and highlights it. */
  function HandlePresetClick(active: Option<Preset>, q: Preset): (r: (Filters, Option<Preset>))
    ensures active == Some(q) <==> r.1.None?
    ensures r.1.None? ==> r.0 == Defaults
    ensures r.1.Some? ==> r.1.value == q && r.0 == PresetFilters(q)
  {
    if active == Some(q) then (ResetPublished(), None) else (PresetFilters(q), Some(q))
  }

  /** A second click on the same preset undoes the first one completely,
      whatever was active before. */
  lemma PresetClick_Twice(active: Option<Preset>, q: Preset)
    ensures var (_, a) := HandlePresetClick(active, q);
            HandlePresetClick(a, q) == (if active == Some(q) then (PresetFilters(q), Some(q)) else (Defaults, None))
  {
  }

  /** What the store's filter run sees of a preset: every preset but the
      hotel one restricts it, and the hotel preset leaves the default run,
      because the run never reads the vendor type. */
  lemma Preset_StoreView(q: Preset)
    ensures StoreView(PresetFilters(q)) == PlanStore.DefaultFilters <==> q == HotelPreset
  {
    Defaults_StoreView();
    if q == FrozenDeliveryPreset {
      assert StoreView(PresetFilters(q)).storageType == Some(Frozen);
    } else if q == VegetarianPreset {
      assert StoreView(PresetFilters(q)).tags == VegetarianTags;
    }
  }

  /** The vendor-type stage the store's filter run leaves out: a chosen
      type keeps only the plans of that type. */
  predicate VendorTypeTest(f: Filters, p: Plan) {
    Chosen(f.vendorType).None? || p.vendorType == Chosen(f.vendorType)
  }

  /** With the vendor-type stage, the hotel preset keeps exactly the hotel
      plans, and the other presets do not narrow by type. */
  lemma HotelPreset_OnlyHotels(q: Preset, p: Plan)
    ensures VendorTypeTest(PresetFilters(q), p) <==> q != HotelPreset || p.vendorType == Some(Hotel)
  {
  }

  /** The `n` elements that come first in descending `key` order, equal
      keys in their original order: `[...s].sort(...).slice(0, n)`. */
  function TopBy<T>(s: seq<T>, key: T -> real, n: nat): (r: seq<T>)
    ensures |r| == Min(n, |s|)
    ensures SortedDesc(r, key)
  {
    var t := SortDesc(s, key);
    var r := Take(t, n);
    assert forall i, j :: 0 <= i < j < |r| ==> r[i] == t[i] && r[j] == t[j];
    r
  }

  /** The top list holds only elements of the input, and every element it
      leaves out ranks no higher than any element it holds. */
  lemma TopBy_Best<T>(s: seq<T>, key: T -> real, n: nat, x: T)
    requires x in s
    ensures x in TopBy(s, key, n) || forall i :: 0 <= i < |TopBy(s, key, n)| ==> key(TopBy(s, key, n)[i]) >= key(x)
  {
    var t := SortDesc(s, key);
    var r := TopBy(s, key, n);
    SortDesc_Mem(s, key, x);
    var m :| 0 <= m < |t| && t[m] == x;
    if m < |r| {
      assert r[m] == x;
    } else {
      forall i | 0 <= i < |r| ensures key(r[i]) >= key(x) {
        assert r[i] == t[i];
      }
    }
  }

  /** The top list is stable: the elements of each key it holds are the
      first ones of that key in the input, in input order. */
  lemma TopBy_Stable<T>(s: seq<T>, key: T -> real, n: nat, k: real)
    ensures Keyed(TopBy(s, key, n), key, k) <= Keyed(s, key, k)
  {
    var t := SortDesc(s, key);
    var r := TopBy(s, key, n);
    assert t == r + t[|r|..];
    Keyed_Append(r, t[|r|..], key, k);
    SortDesc_Stable(s, key, k);
  }

  lemma TopBy_Sub<T>(s: seq<T>, key: T -> real, n: nat, x: T)
    requires x in TopBy(s, key, n)
    ensures x in s
  {
    var t := SortDesc(s, key);
    SortDesc_Mem(s, key, x);
    assert TopBy(s, key, n) == t[..|TopBy(s, key, n)|];
  }

  /** The ascending sort keys: a larger price ranks lower. */
  function PriceAscKey(p: Plan): real { -(p.priceDiscount as real) }

  function PerPersonAscKey(p: Plan): real { -(CompareModal.RoundedPerPerson(p) as real) }

  predicate IsHotel(p: Plan) { p.vendorType == Some(Hotel) }

  /** `(p.servingsMax || p.servingsMin) <= 4`. */
  predicate IsSmallFamily(p: Plan) { TopServings(p) <= 4 }

  const VegetarianWords: seq<string> := ["素食", "全素", "蛋奶素", "蔬食"]

  predicate IsVegetarian(p: Plan) {
    exists i | 0 <= i < |p.tags| :: p.tags[i] in VegetarianWords
  }

  predicate IsEarlyBird(p: Plan) {
    exists i | 0 <= i < |p.tags| :: Contains(p.tags[i], "早鳥")
  }

  /** The computed `stats` of the banner. */
  datatype Stats = Stats(total: nat, byPricePerPerson: seq<Plan>, topHotels: seq<Plan>, vegPlans: seq<Plan>,
                         smallFamilyPlans: seq<Plan>, earlyBird: seq<Plan>,
                         minPrice: Option<int>, maxPrice: Option<int>)

  /** The `stats` memo: the published plans, the five lowest per-person
      prices, the five cheapest hotel and small-family plans, the first five
      vegetarian and early-bird plans and the price span; `None` stands for
      the infinite bounds of an empty list. */
  function StatsOf(plans: seq<Plan>): (s: Stats)
    ensures s.total == |PublishedOf(plans)|
    ensures |s.byPricePerPerson| <= 5 && |s.topHotels| <= 5 && |s.vegPlans| <= 5
    ensures |s.smallFamilyPlans| <= 5 && |s.earlyBird| <= 5
    ensures SortedDesc(s.byPricePerPerson, PerPersonAscKey)
    ensures SortedDesc(s.topHotels, PriceAscKey) && SortedDesc(s.smallFamilyPlans, PriceAscKey)
    ensures s.minPrice.None? <==> s.total == 0
    ensures s.minPrice.Some? ==> s.maxPrice.Some? && s.minPrice.value <= s.maxPrice.value
  {
    var pub := PublishedOf(plans);
    var lo := MinBy(pub, Price);
    var hi := MaxBy(pub, Price);
    Stats(|pub|,
          TopBy(pub, PerPersonAscKey, 5),
          TopBy(Filter(IsHotel, pub), PriceAscKey, 5),
          Take(Filter(IsVegetarian, pub), 5),
          TopBy(Filter(IsSmallFamily, pub), PriceAscKey, 5),
          Take(Filter(IsEarlyBird, pub), 5),
          lo, hi)
  }

  /** Every plan of a top list is a published plan meeting the list's
      condition. */
  lemma Stats_Members(plans: seq<Plan>, p: Plan)
    ensures p in StatsOf(plans).byPricePerPerson ==> p in plans && p.status == Published
    ensures p in StatsOf(plans).topHotels ==> p in plans && p.status == Published && IsHotel(p)
    ensures p in StatsOf(plans).smallFamilyPlans ==> p in plans && p.status == Published && IsSmallFamily(p)
    ensures p in StatsOf(plans).vegPlans ==> p in plans && p.status == Published && IsVegetarian(p)
    ensures p in StatsOf(plans).earlyBird ==> p in plans && p.status == Published && IsEarlyBird(p)
  {
    var pub := PublishedOf(plans);
    var s := StatsOf(plans);
    if p in s.byPricePerPerson {
      TopBy_Sub(pub, PerPersonAscKey, 5, p);
      Filter_Mem(IsPublished, plans, p);
    }
    if p in s.topHotels {
      TopBy_Sub(Filter(IsHotel, pub), PriceAscKey, 5, p);
      Filter_Mem(IsHotel, pub, p);
      Filter_Mem(IsPublished, plans, p);
    }
    if p in s.smallFamilyPlans {
      TopBy_Sub(Filter(IsSmallFamily, pub), PriceAscKey, 5, p);
      Filter_Mem(IsSmallFamily, pub, p);
      Filter_Mem(IsPublished, plans, p);
    }
    if p in s.vegPlans {
      Filter_Mem(IsVegetarian, pub, p);
      Filter_Mem(IsPublished, plans, p);
    }
    if p in s.earlyBird {
      Filter_Mem(IsEarlyBird, pub, p);
      Filter_Mem(IsPublished, plans, p);
    }
  }

  /** A published plan missing from the best-value list has a rounded
      per-person price no lower than any plan on it. */
  lemma Stats_CheapestPerPerson(plans: seq<Plan>, p: Plan)
    requires p in plans && p.status == Published
    ensures var l := StatsOf(plans).byPricePerPerson;
            p !in l ==> forall i :: 0 <= i < |l| ==> CompareModal.RoundedPerPerson(l[i]) <= CompareModal.RoundedPerPerson(p)
  {
    var pub := PublishedOf(plans);
    Filter_Mem(IsPublished, plans, p);
    TopBy_Best(pub, PerPersonAscKey, 5, p);
  }

  /** A published hotel plan missing from the hotel list costs no less
      than any plan on it. */
  lemma Stats_CheapestHotels(plans: seq<Plan>, p: Plan)
    requires p in plans && p.status == Published && IsHotel(p)
    ensures var l := StatsOf(plans).topHotels;
            p !in l ==> forall i :: 0 <= i < |l| ==> l[i].priceDiscount <= p.priceDiscount
  {
    var pub := PublishedOf(plans);
    Filter_Mem(IsPublished, plans, p);
    Filter_Mem(IsHotel, pub, p);
    TopBy_Best(Filter(IsHotel, pub), PriceAscKey, 5, p);
  }

  /** The same for the small-family list. */
  lemma Stats_CheapestSmallFamily(plans: seq<Plan>, p: Plan)
    requires p in plans && p.status == Published && IsSmallFamily(p)
    ensures var l := StatsOf(plans).smallFamilyPlans;
            p !in l ==> forall i :: 0 <= i < |l| ==> l[i].priceDiscount <= p.priceDiscount
  {
    var pub := PublishedOf(plans);
    Filter_Mem(IsPublished, plans, p);
    Filter_Mem(IsSmallFamily, pub, p);
    TopBy_Best(Filter(IsSmallFamily, pub), PriceAscKey, 5, p);
  }

  /** The price span covers exactly the published prices' extremes. */
  lemma Stats_PriceSpan(plans: seq<Plan>, p: Plan)
    requires p in plans && p.status == Published
    ensures StatsOf(plans).minPrice.Some? && StatsOf(plans).maxPrice.Some?
    ensures StatsOf(plans).minPrice.value <= p.priceDiscount <= StatsOf(plans).maxPrice.value
  {
    var pub := PublishedOf(plans);
    Filter_Mem(IsPublished, plans, p);
    var k :| 0 <= k < |pub| && pub[k] == p;
    assert Price(pub[k]) == p.priceDiscount;
  }

  /** `handleTopPickClick(plans)`: the list's titles joined by '|', cut to
      50 characters, as the search text. */
  function TopPickQuery(picks: seq<Plan>): (q: string)
    ensures var j := Join(MapSeq((p: Plan) => p.title, picks), "|");
            |q| <= 50 && |q| <= |j| && q == j[..|q|]
  {
    Take(Join(MapSeq((p: Plan) => p.title, picks), "|"), 50)
  }

  function TopPickFilters(picks: seq<Plan>): (f: Filters)
    ensures f.onlyPublished == Some(true) && f.searchQuery == Some(TopPickQuery(picks))
    ensures f.(searchQuery := None) == Defaults
  {
    ResetPublished().(searchQuery := Some(TopPickQuery(picks)))
  }

  /** As written, the joined text is one search phrase, which the store
      looks for as a whole: two picks titled "a" and "b" give "a|b", found
      in neither plan, so the button shows none of the plans it lists. */
  lemma TopPickQuery_MissesPicks(p: Plan)
    requires p.title == "a" && p.vendorName == "" && p.tags == [] && p.dishes == []
    ensures var picks := [p, p.(title := "b")];
            !PlanStore.SearchHit(TopPickQuery(picks), picks[0]) && !PlanStore.SearchHit(TopPickQuery(picks), picks[1])
  {
    var picks := [p, p.(title := "b")];
    assert MapSeq((p: Plan) => p.title, picks) == ["a", "b"];
    assert Join(["a", "b"], "|") == "a|b";
    assert TopPickQuery(picks) == "a|b";
    assert Lower("a|b") == "a|b";
  }

  /** The search the button means: a plan is shown when it matches the
      title of some listed plan. */
  predicate TopPickHit(picks: seq<Plan>, p: Plan) {
    exists i | 0 <= i < |picks| :: PlanStore.SearchHit(picks[i].title, p)
  }

  /** Under that search every listed plan is shown. */
  lemma TopPickHit_ShowsPicks(picks: seq<Plan>, k: nat)
    requires k < |picks|
    ensures TopPickHit(picks, picks[k])
  {
    ContainsSelf(Lower(picks[k].title));
    assert PlanStore.SearchHit(picks[k].title, picks[k]);
  }
}

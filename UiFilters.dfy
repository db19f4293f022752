/** The filter record the components read and write (the `FilterState`
    interface of src/types/index.ts), the store's `setFilters` merge and
    `resetFilters`, and the projection onto the fields the store's filter
    run reads. Every field is optional, as in the interface; a choice field
    can also hold `'all'`. The map-bounds rectangle is not modelled. */
module UiFilters {
  import opened Common
  import opened Types
  import PlanStore

  /** A choice that may also be `'all'`. */
  datatype Choice<T> = AllChoice | Only(value: T)

  datatype FeeChoice = FreeOnly | AnyFee

  datatype Filters = Filters(
    priceMin: Option<int>,
    priceMax: Option<int>,
    pricePerPersonMax: Option<int>,
    servingsMin: Option<int>,
    servingsMax: Option<int>,
    shippingType: Option<Choice<ShippingType>>,
    shippingTypes: Option<seq<ShippingType>>,
    shippingFee: Option<FeeChoice>,
    storageType: Option<Choice<StorageType>>,
    storageTypes: Option<seq<StorageType>>,
    maxDistance: Option<int>,
    targetDate: Option<string>,
    mustBeBeforeDeadline: Option<bool>,
    canSelectDate: Option<bool>,
    tags: Option<seq<string>>,
    tagLogic: Option<PlanStore.TagLogic>,
    searchQuery: Option<string>,
    onlyPublished: Option<bool>,
    region: Option<Choice<TaiwanRegion>>,
    city: Option<Choice<TaiwanCity>>,
    district: Option<string>,
    showFavoritesOnly: Option<bool>,
    showHistoryOnly: Option<bool>,
    excludeKeywords: Option<seq<string>>,
    vendorType: Option<Choice<VendorType>>,
    productType: Option<Choice<ProductType>>,
    cuisineStyle: Option<Choice<CuisineStyle>>,
    priceLevel: Option<Choice<PriceLevel>>,
    familySize: Option<Choice<FamilySize>>
  )

  /** `defaultFilters`: every shipping and storage type, published plans
      only, nothing else set. */
  const Defaults := Filters(None, None, None, None, None, Some(AllChoice), None, None, Some(AllChoice), None,
                            None, None, None, None, None, None, None, Some(true), None, None,
                            None, None, None, None, None, None, None, None, None)

  /** A number field that JavaScript reads as true: set and not zero. */
  predicate NumSet(n: Option<int>) {
    n.Some? && n.value != 0
  }

  /** A list field that is set and not empty. */
  predicate ListSet<T>(l: Option<seq<T>>) {
    l.Some? && |l.value| > 0
  }

  /** `filters.tags || []` and the like. */
  function ListOr<T>(l: Option<seq<T>>): seq<T> {
    if l.Some? then l.value else []
  }

  /** The multi-select toggle every component uses: remove every copy of a
      present value, append an absent one. */
  function Toggle<T(==,!new)>(s: seq<T>, x: T): (r: seq<T>)
    ensures x in r <==> x !in s
    ensures forall y :: y != x ==> (y in r <==> y in s)
  {
    if x in s then
      var r := Filter((y: T) => y != x, s);
      forall y | y in s && y != x ensures y in r {
        Filter_Mem((y: T) => y != x, s, y);
      }
      forall y | y in r ensures y in s {
        Filter_Mem((y: T) => y != x, s, y);
      }
      r
    else s + [x]
  }

  /** Toggling the same value twice restores membership, and adding then
      removing an absent value restores the list itself. */
  lemma Toggle_Involution<T(!new)>(s: seq<T>, x: T, y: T)
    ensures y in Toggle(Toggle(s, x), x) <==> y in s
    ensures x !in s ==> Toggle(Toggle(s, x), x) == s
  {
    if x !in s {
      var f := (z: T) => z != x;
      Filter_Append(f, s, [x]);
      Filter_All(f, s);
      assert Filter(f, [x]) == [];
    }
  }

  /** Toggling never introduces a duplicate. */
  lemma Toggle_NoDup<T(!new)>(s: seq<T>, x: T)
    requires NoDup(s)
    ensures NoDup(Toggle(s, x))
  {
    if x in s {
      Filter_NoDup((y: T) => y != x, s);
    } else {
      NoDup_Snoc(s, x);
    }
  }

  /** A field of `{ ...current, ...patch }`: the patch's value when the
      patch has the key. */
  function Pick<T>(patch: Option<T>, current: Option<T>): (r: Option<T>)
    ensures patch.Some? ==> r == patch
    ensures patch.None? ==> r == current
  {
    if patch.Some? then patch else current
  }

  /** A patch that sets nothing. */
  const NoChange := Filters(None, None, None, None, None, None, None, None, None, None,
                            None, None, None, None, None, None, None, None, None, None,
                            None, None, None, None, None, None, None, None, None)

  /** `setFilters(patch)`: `{ ...state.filters, ...patch }`. */
  function Merge(current: Filters, patch: Filters): (r: Filters)
    ensures patch.onlyPublished.Some? ==> r.onlyPublished == patch.onlyPublished
    ensures patch.onlyPublished.None? ==> r.onlyPublished == current.onlyPublished
  {
    Filters(
      Pick(patch.priceMin, current.priceMin), Pick(patch.priceMax, current.priceMax), Pick(patch.pricePerPersonMax, current.pricePerPersonMax),
      Pick(patch.servingsMin, current.servingsMin), Pick(patch.servingsMax, current.servingsMax), Pick(patch.shippingType, current.shippingType),
      Pick(patch.shippingTypes, current.shippingTypes), Pick(patch.shippingFee, current.shippingFee), Pick(patch.storageType, current.storageType),
      Pick(patch.storageTypes, current.storageTypes), Pick(patch.maxDistance, current.maxDistance), Pick(patch.targetDate, current.targetDate),
      Pick(patch.mustBeBeforeDeadline, current.mustBeBeforeDeadline), Pick(patch.canSelectDate, current.canSelectDate), Pick(patch.tags, current.tags),
      Pick(patch.tagLogic, current.tagLogic), Pick(patch.searchQuery, current.searchQuery), Pick(patch.onlyPublished, current.onlyPublished),
      Pick(patch.region, current.region), Pick(patch.city, current.city), Pick(patch.district, current.district),
      Pick(patch.showFavoritesOnly, current.showFavoritesOnly), Pick(patch.showHistoryOnly, current.showHistoryOnly), Pick(patch.excludeKeywords, current.excludeKeywords),
      Pick(patch.vendorType, current.vendorType), Pick(patch.productType, current.productType), Pick(patch.cuisineStyle, current.cuisineStyle),
      Pick(patch.priceLevel, current.priceLevel), Pick(patch.familySize, current.familySize))
  }

  /** An empty patch changes nothing. */
  lemma Merge_NoChange(current: Filters)
    ensures Merge(current, NoChange) == current
  {
  }

  /** Applying the same patch again changes nothing more. */
  lemma Merge_Twice(current: Filters, patch: Filters)
    ensures Merge(Merge(current, patch), patch) == Merge(current, patch)
  {
  }

  /** Two patches in a row are one patch, the later winning each key. */
  lemma Merge_Compose(current: Filters, p: Filters, q: Filters)
    ensures Merge(Merge(current, p), q) == Merge(current, Merge(p, q))
  {
  }

  /** The choice the store's filter run reads: `'all'` and absence mean no
      restriction. */
  function Chosen<T>(c: Option<Choice<T>>): Option<T> {
    if c.Some? && c.value.Only? then Some(c.value.value) else None
  }

  /** The fields `getFilteredPlans` reads, with an absent text as `""`, an
      absent flag as false and an absent list as empty. */
  function StoreView(f: Filters): (v: PlanStore.FilterState)
    ensures v.onlyPublished <==> f.onlyPublished == Some(true)
    ensures v.tags == ListOr(f.tags) && v.excludeKeywords == ListOr(f.excludeKeywords)
    ensures v.region == Chosen(f.region) && v.shippingType == Chosen(f.shippingType)
  {
    PlanStore.FilterState(
      f.priceMin, f.priceMax, f.pricePerPersonMax, f.servingsMin, f.servingsMax,
      Chosen(f.shippingType), Chosen(f.storageType),
      if f.targetDate.Some? then f.targetDate.value else "",
      f.mustBeBeforeDeadline == Some(true), f.canSelectDate,
      ListOr(f.tags), f.tagLogic,
      if f.searchQuery.Some? then f.searchQuery.value else "",
      f.onlyPublished == Some(true), Chosen(f.region), Chosen(f.city),
      f.showFavoritesOnly == Some(true), f.showHistoryOnly == Some(true),
      ListOr(f.excludeKeywords))
  }

  /** The component-side defaults are the store's default filter run. */
  lemma Defaults_StoreView()
    ensures StoreView(Defaults) == PlanStore.DefaultFilters
  {
  }

  /** `resetFilters()` followed by `setFilters({ onlyPublished: true })`:
      the defaults again, since they already show published plans only. */
  function ResetPublished(): (f: Filters)
    ensures f.onlyPublished == Some(true)
  {
    Defaults.(onlyPublished := Some(true))
  }

  lemma ResetPublished_IsDefault()
    ensures ResetPublished() == Defaults
  {
  }
}

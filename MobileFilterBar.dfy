/** The mobile filter bar: the seven one-tap quick filters (only one on at
    a time), the "has filters" marker, clearing everything, the vendor tab's
    search over the vendor tally, and the multi-select buttons. */
module MobileFilterBar {
  import opened Common
  import opened Types
  import opened UiFilters
  import FilterSidebar
  import VendorList

  datatype QuickFilter = BestValue | FreeShip | EarlyBird | SmallFamily | UnderThreeThousand | HotelOnly | Veggie

  function QuickFilterId(q: QuickFilter): string {
    match q
    case BestValue => "cp"
    case FreeShip => "free_ship"
    case EarlyBird => "early_bird"
    case SmallFamily => "small"
    case UnderThreeThousand => "budget"
    case HotelOnly => "hotel"
    case Veggie => "veg"
  }

  /** `QUICK_FILTERS.find(f => f.id === filterId)`. */
  function FindQuickFilter(id: string): (r: Option<QuickFilter>)
    ensures r.Some? ==> QuickFilterId(r.value) == id
    ensures r.None? ==> forall q :: QuickFilterId(q) != id
  {
    if id == "cp" then Some(BestValue)
    else if id == "free_ship" then Some(FreeShip)
    else if id == "early_bird" then Some(EarlyBird)
    else if id == "small" then Some(SmallFamily)
    else if id == "budget" then Some(UnderThreeThousand)
    else if id == "hotel" then Some(HotelOnly)
    else if id == "veg" then Some(Veggie)
    else None
  }

  /** The filters a quick filter leaves: the defaults, published plans
      only, and its own field. The best-value one sets no field. */
  function QuickFilterPatch(q: QuickFilter): Filters {
    var base := ResetPublished();
    match q
    case BestValue => base
    case FreeShip => base.(shippingFee := Some(FreeOnly))
    case EarlyBird => base.(tags := Some(["早鳥優惠"]))
    case SmallFamily => base.(servingsMax := Some(4))
    case UnderThreeThousand => base.(priceMax := Some(3000))
    case HotelOnly => base.(vendorType := Some(Only(Hotel)))
    case Veggie => base.(tags := Some(["素食"]))
  }

  /** The bar's part of the store and its own highlighted quick filter. */
  datatype BarState = BarState(filters: Filters, sortBy: SortOption, active: Option<QuickFilter>)

  /** `handleQuickFilter(id)`: an unknown id does nothing; the highlighted
      filter tapped again resets; any other replaces the filters, and the
      best-value one sends its order to `setSortBy` instead. */
  function HandleQuickFilter(st: BarState, id: string): (r: BarState)
    ensures FindQuickFilter(id).None? ==> r == st
    ensures FindQuickFilter(id).Some? && st.active == FindQuickFilter(id) ==> r == BarState(Defaults, st.sortBy, None)
    ensures FindQuickFilter(id).Some? && st.active != FindQuickFilter(id) ==>
              r.active == FindQuickFilter(id) && r.filters == QuickFilterPatch(r.active.value)
              && r.sortBy == (if id == "cp" then PricePerPersonAsc else st.sortBy)
  {
    ResetPublished_IsDefault();
    var q := FindQuickFilter(id);
    if q.None? then st
    else if st.active == q then BarState(ResetPublished(), st.sortBy, None)
    else BarState(QuickFilterPatch(q.value), if q.value == BestValue then PricePerPersonAsc else st.sortBy, q)
  }

  /** Tapping a quick filter twice gives back the default filters with
      nothing highlighted, whatever was on before. */
  lemma QuickFilter_Twice(st: BarState, q: QuickFilter)
    requires st.active != Some(q)
    ensures var r := HandleQuickFilter(HandleQuickFilter(st, QuickFilterId(q)), QuickFilterId(q));
            r.filters == Defaults && r.active.None?
  {
    var id := QuickFilterId(q);
    assert FindQuickFilter(id) == Some(q);
  }

  /** `hasFilters`. */
  predicate HasFilters(f: Filters) {
    (f.searchQuery.Some? && f.searchQuery.value != "")
    || f.priceMin.Some? || f.priceMax.Some? || f.servingsMin.Some? || f.servingsMax.Some?
    || ListSet(f.storageTypes) || ListSet(f.shippingTypes) || f.shippingFee == Some(FreeOnly)
    || f.vendorType.Some? || ListSet(f.tags) || f.region.Some?
  }

  /** `handleClearAll()`. */
  function HandleClearAll(st: BarState): (r: BarState)
    ensures r.active.None? && r.sortBy == st.sortBy
    ensures r.filters == Defaults
  {
    ResetPublished_IsDefault();
    BarState(ResetPublished(), st.sortBy, None)
  }

  /** After clearing, nothing counts as a filter; every quick filter but
      the best-value order counts as one, and that one changes only the
      order. */
  lemma QuickFilter_Marks(st: BarState, q: QuickFilter)
    ensures !HasFilters(HandleClearAll(st).filters)
    ensures HasFilters(QuickFilterPatch(q)) <==> q != BestValue
    ensures QuickFilterPatch(BestValue) == Defaults
  {
    ResetPublished_IsDefault();
  }

  /** The vendor tab's search: `vendorStats` itself for an empty query,
      otherwise the entries whose name holds it, case-insensitively. */
  function TabVendors(stats: seq<VendorList.VendorStat>, query: string): (r: seq<VendorList.VendorStat>)
    ensures r == VendorList.FilteredVendors(stats, AllChoice, query)
  {
    if query == "" then stats else Filter((v: VendorList.VendorStat) => VendorList.NameMatches(v, query), stats)
  }

  /** The vendor tab shows exactly the vendors whose name holds the query. */
  lemma TabVendors_Mem(stats: seq<VendorList.VendorStat>, query: string, v: VendorList.VendorStat)
    ensures v in TabVendors(stats, query) <==> v in stats && (query != "" ==> VendorList.NameMatches(v, query))
  {
    VendorList.FilteredVendors_Mem(stats, AllChoice, query, v);
  }

  /** The shipping and storage buttons are the sidebar's toggles: two taps
      give back the same selection. */
  lemma MultiSelect_Involution(f: Filters, t: ShippingType, u: ShippingType, s: StorageType, v: StorageType)
    ensures u in FilterSidebar.ToggleShippingType(FilterSidebar.ToggleShippingType(f, t), t).shippingTypes.value
            <==> u in ListOr(f.shippingTypes)
    ensures v in FilterSidebar.ToggleStorageType(FilterSidebar.ToggleStorageType(f, s), s).storageTypes.value
            <==> v in ListOr(f.storageTypes)
  {
    Toggle_Involution(ListOr(f.shippingTypes), t, u);
    Toggle_Involution(ListOr(f.storageTypes), s, v);
  }
}

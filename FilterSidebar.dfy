/** The desktop filter sidebar: the two-thumb price slider, the price and
    servings range buttons, the multi-select toggles, the cities and
    districts offered for the chosen region and city, and the badge that
    counts the active filters. Every handler is the store's `setFilters`
    merge, so each is a function from the old filter record to the new. */
module FilterSidebar {
  import opened Common
  import opened Types
  import opened UiFilters

  const PriceMin := 0
  const PriceMax := 20000
  const PriceStep := 500

  /** The lower thumb: `Math.min(value, localMax - gap)`. */
  function LowerThumb(value: int, localMax: int, gap: int): (r: int)
    ensures r <= localMax - gap
    ensures r == value <==> value <= localMax - gap
  {
    Min(value, localMax - gap)
  }

  /** The upper thumb: `Math.max(value, localMin + gap)`. */
  function UpperThumb(value: int, localMin: int, gap: int): (r: int)
    ensures r >= localMin + gap
    ensures r == value <==> value >= localMin + gap
  {
    Max(value, localMin + gap)
  }

  /** The slider's two thumbs, at least `gap` apart. */
  predicate Apart(localMin: int, localMax: int, gap: int) {
    localMin + gap <= localMax
  }

  /** Whatever the thumbs are dragged to, in whatever order, they stay at
      least one step apart, and a drag that keeps the gap lands where the
      thumb was dropped. */
  lemma {:induction false} Thumbs_StayApart(lo: int, hi: int, drags: seq<(bool, int)>, gap: int)
    requires Apart(lo, hi, gap)
    ensures Apart(Drag(lo, hi, drags, gap).0, Drag(lo, hi, drags, gap).1, gap)
    decreases |drags|
  {
    if drags != [] {
      var d := drags[0];
      var lo' := if d.0 then LowerThumb(d.1, hi, gap) else lo;
      var hi' := if d.0 then hi else UpperThumb(d.1, lo, gap);
      Thumbs_StayApart(lo', hi', drags[1..], gap);
    }
  }

  /** The thumbs after a sequence of drags: `(true, v)` moves the lower
      thumb to `v`, `(false, v)` the upper one. */
  function Drag(lo: int, hi: int, drags: seq<(bool, int)>, gap: int): (r: (int, int))
    decreases |drags|
  {
    if drags == [] then (lo, hi)
    else
      var d := drags[0];
      if d.0 then Drag(LowerThumb(d.1, hi, gap), hi, drags[1..], gap)
      else Drag(lo, UpperThumb(d.1, lo, gap), drags[1..], gap)
  }

  /** `handlePriceRange(min, max)`: the slider's ends mean no bound. */
  function HandlePriceRange(f: Filters, min: int, max: int): (r: Filters)
    ensures r.priceMin.None? <==> min == PriceMin
    ensures r.priceMin.Some? ==> r.priceMin.value == min
    ensures r.priceMax.None? <==> max == PriceMax
    ensures r.priceMax.Some? ==> r.priceMax.value == max
    ensures r.(priceMin := f.priceMin, priceMax := f.priceMax) == f
  {
    f.(priceMin := if min == PriceMin then None else Some(min),
       priceMax := if max == PriceMax then None else Some(max))
  }

  /** The servings range buttons: `{min, max}` with `max` absent for the
      open-ended last one. */
  const ServingRanges: seq<(int, Option<int>)> := [(2, Some(4)), (5, Some(6)), (7, Some(8)), (9, Some(10)), (10, None)]

  /** `handleServingRange(min, max)`: clicking the range already selected
      clears both bounds, any other click selects it. */
  function HandleServingRange(f: Filters, min: int, max: Option<int>): (r: Filters)
    ensures f.servingsMin == Some(min) && f.servingsMax == max ==> r.servingsMin.None? && r.servingsMax.None?
    ensures !(f.servingsMin == Some(min) && f.servingsMax == max) ==> r.servingsMin == Some(min) && r.servingsMax == max
    ensures r.(servingsMin := f.servingsMin, servingsMax := f.servingsMax) == f
  {
    if f.servingsMin == Some(min) && f.servingsMax == max then f.(servingsMin := None, servingsMax := None)
    else f.(servingsMin := Some(min), servingsMax := max)
  }

  /** A second click on the same range button undoes the first when no
      servings bound was set before. */
  lemma ServingRange_Twice(f: Filters, min: int, max: Option<int>)
    requires f.servingsMin.None? && f.servingsMax.None?
    ensures HandleServingRange(HandleServingRange(f, min, max), min, max) == f
  {
  }

  /** `handleTagToggle(tag)` over `filters.tags || []`. */
  function HandleTagToggle(f: Filters, tag: string): (r: Filters)
    ensures r.tags.Some? && (tag in r.tags.value <==> tag !in ListOr(f.tags))
    ensures forall t :: t != tag ==> (t in r.tags.value <==> t in ListOr(f.tags))
    ensures r.(tags := f.tags) == f
  {
    f.(tags := Some(Toggle(ListOr(f.tags), tag)))
  }

  /** Toggling the same tag twice gives back the same set of tags. */
  lemma TagToggle_Involution(f: Filters, tag: string, t: string)
    ensures t in HandleTagToggle(HandleTagToggle(f, tag), tag).tags.value <==> t in ListOr(f.tags)
  {
    Toggle_Involution(ListOr(f.tags), tag, t);
  }

  /** The shipping-type check boxes: the same toggle on
      `filters.shippingTypes || []`. */
  function ToggleShippingType(f: Filters, t: ShippingType): (r: Filters)
    ensures r.shippingTypes.Some? && (t in r.shippingTypes.value <==> t !in ListOr(f.shippingTypes))
    ensures r.(shippingTypes := f.shippingTypes) == f
  {
    f.(shippingTypes := Some(Toggle(ListOr(f.shippingTypes), t)))
  }

  /** The storage-type check boxes. */
  function ToggleStorageType(f: Filters, t: StorageType): (r: Filters)
    ensures r.storageTypes.Some? && (t in r.storageTypes.value <==> t !in ListOr(f.storageTypes))
    ensures r.(storageTypes := f.storageTypes) == f
  {
    f.(storageTypes := Some(Toggle(ListOr(f.storageTypes), t)))
  }

  /** The free-shipping switch: `'free'` when it was not, else unset. */
  function ToggleFreeShipping(f: Filters): (r: Filters)
    ensures r.shippingFee == Some(FreeOnly) <==> f.shippingFee != Some(FreeOnly)
    ensures r.(shippingFee := f.shippingFee) == f
  {
    f.(shippingFee := if f.shippingFee == Some(FreeOnly) then None else Some(FreeOnly))
  }

  /** Two flips of the free-shipping switch leave it on exactly when it
      was on. */
  lemma FreeShipping_Twice(f: Filters)
    ensures ToggleFreeShipping(ToggleFreeShipping(f)).shippingFee == Some(FreeOnly) <==> f.shippingFee == Some(FreeOnly)
  {
  }

  /** Choosing a region resets the city to `'all'`, choosing a city resets
      the district. */
  function SelectRegion(f: Filters, region: Choice<TaiwanRegion>): (r: Filters)
    ensures r.region == Some(region) && r.city == Some(AllChoice)
    ensures r.(region := f.region, city := f.city) == f
  {
    f.(region := Some(region), city := Some(AllChoice))
  }

  function SelectCity(f: Filters, city: Choice<TaiwanCity>): (r: Filters)
    ensures r.city == Some(city) && r.district == Some("all")
    ensures r.(city := f.city, district := f.district) == f
  {
    f.(city := Some(city), district := Some("all"))
  }

  /** `availableCities`: the region's cities, none for an unset, `'all'`
      or nationwide region. */
  function AvailableCities(region: Option<Choice<TaiwanRegion>>): (r: seq<TaiwanCity>)
    ensures region.None? || region == Some(AllChoice) || region == Some(Only(Nationwide)) ==> r == []
    ensures forall i :: 0 <= i < |r| ==> Some(Only(CityRegion(r[i]))) == region
  {
    if region.Some? && region.value.Only? && region.value.value != Nationwide then
      RegionCities_Regions(region.value.value);
      RegionCities(region.value.value)
    else []
  }

  /** Each city offered is offered once, and every city of a chosen
      region is offered. */
  lemma AvailableCities_Complete(r: TaiwanRegion, c: TaiwanCity)
    ensures NoDup(AvailableCities(Some(Only(r))))
    ensures CityRegion(c) == r ==> c in AvailableCities(Some(Only(r)))
  {
    RegionCities_NoDup(r);
    RegionCities_Partition(c, r);
  }

  /** `availableDistricts`: the city's districts, none for an unset or
      `'all'` city or a city without a district list. */
  function AvailableDistricts(city: Option<Choice<TaiwanCity>>): (r: seq<string>)
    ensures r != [] ==> city.Some? && city.value.Only? && CityDistricts(city.value.value).Some?
    ensures city.Some? && city.value.Only? && CityDistricts(city.value.value).Some? ==> r == CityDistricts(city.value.value).value
  {
    if city.Some? && city.value.Only? then
      var d := CityDistricts(city.value.value);
      if d.Some? then d.value else []
    else []
  }

  /** A choice that JavaScript reads as set and is not `'all'`. */
  predicate Picked<T>(c: Option<Choice<T>>) {
    c.Some? && c.value.Only?
  }

  /** The nine conditions `activeFilterCount` counts. */
  function ActiveFlags(f: Filters): (r: seq<bool>)
    ensures |r| == 9
  {
    [f.priceMin.Some? || f.priceMax.Some?,
     f.servingsMin.Some? || f.servingsMax.Some?,
     ListSet(f.shippingTypes),
     ListSet(f.storageTypes),
     f.shippingFee == Some(FreeOnly),
     Picked(f.region),
     Picked(f.city),
     f.district.Some? && f.district.value != "" && f.district.value != "all",
     ListSet(f.tags)]
  }

  /** `activeFilterCount`: how many of the nine hold. */
  function ActiveFilterCount(f: Filters): (r: nat)
    ensures r <= 9
  {
    Count((b: bool) => b, ActiveFlags(f))
  }

  /** The badge shows nothing exactly when none of the nine holds, which
      is the case for the default filters. */
  lemma ActiveFilterCount_Zero(f: Filters)
    ensures ActiveFilterCount(f) == 0 <==> (
      f.priceMin.None? && f.priceMax.None? && f.servingsMin.None? && f.servingsMax.None?
      && !ListSet(f.shippingTypes) && !ListSet(f.storageTypes) && f.shippingFee != Some(FreeOnly)
      && !Picked(f.region) && !Picked(f.city)
      && (f.district.None? || f.district.value in {"", "all"}) && !ListSet(f.tags))
  {
    Count_Zero((b: bool) => b, ActiveFlags(f));
    var a := ActiveFlags(f);
    assert (forall i :: 0 <= i < 9 ==> !a[i]) <==> !a[0] && !a[1] && !a[2] && !a[3] && !a[4] && !a[5] && !a[6] && !a[7] && !a[8];
  }

  /** The default filters show no badge. */
  lemma ActiveFilterCount_Defaults()
    ensures ActiveFilterCount(Defaults) == 0
  {
    ActiveFilterCount_Zero(Defaults);
  }
}

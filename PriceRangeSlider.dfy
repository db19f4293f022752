/** The price slider panel: the range the slider spans (the published
    prices widened to whole hundreds), the thumbs kept 500 apart, applying
    and clearing the bounds, and the four quick ranges. */
module PriceRangeSlider {
  import opened Common
  import opened Types
  import opened UiFilters
  import FilterSidebar

  const Gap := 500

  /** `priceRange`: the lowest published price rounded down and the
      highest rounded up to a multiple of 100, or 0..20000 when nothing is
      published. */
  function PriceRange(plans: seq<Plan>): (r: (int, int))
    ensures PublishedOf(plans) == [] ==> r == (0, 20000)
    ensures r.0 % 100 == 0 && r.1 % 100 == 0 && r.0 <= r.1
  {
    var pub := PublishedOf(plans);
    if pub == [] then (0, 20000)
    else
      var lo := MinBy(pub, Price).value;
      var hi := MaxBy(pub, Price).value;
      assert lo <= hi by {
        var i :| 0 <= i < |pub| && Price(pub[i]) == lo;
      }
      (DownToHundred(lo), UpToHundred(hi))
  }

  /** `Math.floor(n / 100) * 100`. */
  function DownToHundred(n: int): (r: int)
    ensures r % 100 == 0 && r <= n < r + 100
  {
    var k := FloorDiv(n, 100);
    k * 100
  }

  /** `Math.ceil(n / 100) * 100`. */
  function UpToHundred(n: int): (r: int)
    ensures r % 100 == 0 && r - 100 < n <= r
  {
    var k := CeilDiv(n, 100);
    k * 100
  }

  /** Every published price lies in the range, and each end is less than
      100 away from some published price. */
  lemma PriceRange_Covers(plans: seq<Plan>)
    requires PublishedOf(plans) != []
    ensures forall i :: 0 <= i < |PublishedOf(plans)| ==>
              PriceRange(plans).0 <= PublishedOf(plans)[i].priceDiscount <= PriceRange(plans).1
    ensures exists p :: p in PublishedOf(plans) && p.priceDiscount < PriceRange(plans).0 + 100
    ensures exists p :: p in PublishedOf(plans) && p.priceDiscount > PriceRange(plans).1 - 100
  {
    var pub := PublishedOf(plans);
    var lo := MinBy(pub, Price).value;
    var hi := MaxBy(pub, Price).value;
    var i :| 0 <= i < |pub| && Price(pub[i]) == lo;
    var j :| 0 <= j < |pub| && Price(pub[j]) == hi;
    assert pub[i] in pub && pub[j] in pub;
  }

  /** The thumbs' start: `filters.priceMin || priceRange.min` and the like,
      so an unset or zero bound starts at the range's end. */
  function LocalStart(bound: Option<int>, fallback: int): (r: int)
    ensures NumSet(bound) ==> r == bound.value
    ensures !NumSet(bound) ==> r == fallback
  {
    if NumSet(bound) then bound.value else fallback
  }

  /** `handleMinChange` and `handleMaxChange`. */
  function HandleMinChange(value: int, localMax: int): (r: int)
    ensures r + Gap <= localMax
    ensures r == value <==> value + Gap <= localMax
  {
    FilterSidebar.LowerThumb(value, localMax, Gap)
  }

  function HandleMaxChange(value: int, localMin: int): (r: int)
    ensures localMin + Gap <= r
    ensures r == value <==> localMin + Gap <= value
  {
    FilterSidebar.UpperThumb(value, localMin, Gap)
  }

  /** `handleApply()`: a thumb at the range's end means no bound. */
  function HandleApply(f: Filters, localMin: int, localMax: int, range: (int, int)): (r: Filters)
    ensures r.priceMin.None? <==> localMin == range.0
    ensures r.priceMax.None? <==> localMax == range.1
    ensures r.priceMin.Some? ==> r.priceMin.value == localMin
    ensures r.priceMax.Some? ==> r.priceMax.value == localMax
    ensures r.(priceMin := f.priceMin, priceMax := f.priceMax) == f
  {
    f.(priceMin := if localMin == range.0 then None else Some(localMin),
       priceMax := if localMax == range.1 then None else Some(localMax))
  }

  /** Applying without touching the thumbs keeps an unset bound unset and
      a set bound that is neither zero nor the range's end as it was. */
  lemma Apply_Untouched(f: Filters, range: (int, int))
    ensures var r := HandleApply(f, LocalStart(f.priceMin, range.0), LocalStart(f.priceMax, range.1), range);
            (f.priceMin.None? ==> r.priceMin.None?)
            && (f.priceMax.None? ==> r.priceMax.None?)
            && (NumSet(f.priceMin) && f.priceMin.value != range.0 ==> r.priceMin == f.priceMin)
            && (NumSet(f.priceMax) && f.priceMax.value != range.1 ==> r.priceMax == f.priceMax)
  {
  }

  /** `handleReset()`: both bounds cleared and the thumbs back at the
      range's ends, which is where the sync puts them too. */
  function HandleReset(f: Filters, range: (int, int)): (r: (Filters, int, int))
    ensures r.0.priceMin.None? && r.0.priceMax.None?
    ensures r.0.(priceMin := f.priceMin, priceMax := f.priceMax) == f
    ensures r.1 == range.0 && r.2 == range.1
  {
    (f.(priceMin := None, priceMax := None), range.0, range.1)
  }

  lemma Reset_InSync(f: Filters, range: (int, int))
    ensures var r := HandleReset(f, range);
            LocalStart(r.0.priceMin, range.0) == r.1 && LocalStart(r.0.priceMax, range.1) == r.2
  {
  }

  /** `isFiltered`. */
  predicate IsFiltered(f: Filters) {
    f.priceMin.Some? || f.priceMax.Some?
  }

  /** The quick ranges, the last reaching to the top of the range. */
  function QuickRanges(range: (int, int)): (r: seq<(string, int, int)>)
    ensures |r| == 4 && r[0].1 == 0
  {
    [("平價", 0, 2000), ("中價", 2000, 5000), ("高價", 5000, 10000), ("頂級", 10000, range.1)]
  }

  /** A quick range button: `priceMin: min || undefined, priceMax: max`. */
  function QuickRange(f: Filters, min: int, max: int): (r: Filters)
    ensures r.priceMin.None? <==> min == 0
    ensures r.priceMin.Some? ==> r.priceMin.value == min
    ensures r.priceMax == Some(max)
    ensures r.(priceMin := f.priceMin, priceMax := f.priceMax) == f
  {
    f.(priceMin := if min == 0 then None else Some(min), priceMax := Some(max))
  }

  /** A quick range is highlighted while the thumbs sit on its ends. */
  predicate QuickActive(localMin: int, localMax: int, min: int, max: int) {
    localMin == min && localMax == max
  }

  /** Once the thumbs are synced to the filters a quick range set, its
      button stays highlighted when it starts above zero; the one starting
      at zero stays highlighted only when the slider's range starts at
      zero. */
  lemma QuickRange_Highlight(f: Filters, min: int, max: int, range: (int, int))
    requires max != 0
    ensures var g := QuickRange(f, min, max);
            QuickActive(LocalStart(g.priceMin, range.0), LocalStart(g.priceMax, range.1), min, max)
            <==> (min != 0 || range.0 == 0)
  {
  }
}

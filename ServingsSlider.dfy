/** The servings slider panel: thumbs kept one person apart on a 1..12
    scale, applying and clearing the bounds, the quick options and the
    label above the slider. */
module ServingsSlider {
  import opened Common
  import opened UiFilters
  import FilterSidebar
  import PriceRangeSlider

  const MinServings := 1
  const MaxServings := 12

  /** `handleMinChange` and `handleMaxChange`: one person apart. */
  function HandleMinChange(value: int, localMax: int): (r: int)
    ensures r + 1 <= localMax
    ensures r == value <==> value < localMax
  {
    FilterSidebar.LowerThumb(value, localMax, 1)
  }

  function HandleMaxChange(value: int, localMin: int): (r: int)
    ensures localMin + 1 <= r
    ensures r == value <==> value > localMin
  {
    FilterSidebar.UpperThumb(value, localMin, 1)
  }

  /** `handleApply()`: 1 means no lower bound and 12 no upper bound. */
  function HandleApply(f: Filters, localMin: int, localMax: int): (r: Filters)
    ensures r.servingsMin.None? <==> localMin == MinServings
    ensures r.servingsMax.None? <==> localMax == MaxServings
    ensures r.servingsMin.Some? ==> r.servingsMin.value == localMin
    ensures r.servingsMax.Some? ==> r.servingsMax.value == localMax
    ensures r.(servingsMin := f.servingsMin, servingsMax := f.servingsMax) == f
  {
    f.(servingsMin := if localMin == MinServings then None else Some(localMin),
       servingsMax := if localMax == MaxServings then None else Some(localMax))
  }

  /** `handleReset()`: both bounds cleared, the thumbs at 1 and 12. */
  function HandleReset(f: Filters): (r: (Filters, int, int))
    ensures r.0.servingsMin.None? && r.0.servingsMax.None?
    ensures r.0.(servingsMin := f.servingsMin, servingsMax := f.servingsMax) == f
    ensures r.1 == MinServings && r.2 == MaxServings
  {
    (f.(servingsMin := None, servingsMax := None), MinServings, MaxServings)
  }

  /** Applying the thumbs as the sync places them after a reset sets no
      bound: reset and apply agree. */
  lemma Reset_Apply(f: Filters)
    ensures var r := HandleReset(f);
            HandleApply(r.0, PriceRangeSlider.LocalStart(r.0.servingsMin, MinServings),
                        PriceRangeSlider.LocalStart(r.0.servingsMax, MaxServings)) == r.0
  {
  }

  /** The quick options: two, four, six and twelve people at most. */
  const QuickOptions: seq<(string, int, int)> := [("小倆口", 1, 2), ("小家庭", 3, 4), ("中型聚餐", 5, 6), ("大家族", 7, 12)]

  /** A quick option: its minimum as is, its maximum dropped when it
      reaches the top of the scale. */
  function QuickOption(f: Filters, min: int, max: int): (r: Filters)
    ensures r.servingsMin == Some(min)
    ensures r.servingsMax.None? <==> max >= MaxServings
    ensures r.servingsMax.Some? ==> r.servingsMax.value == max
    ensures r.(servingsMin := f.servingsMin, servingsMax := f.servingsMax) == f
  {
    f.(servingsMin := Some(min), servingsMax := if max >= MaxServings then None else Some(max))
  }

  /** Every quick option is still highlighted once the thumbs are synced
      to the filters it set. */
  lemma QuickOption_Highlight(f: Filters, k: nat)
    requires k < |QuickOptions|
    ensures var o := QuickOptions[k];
            var g := QuickOption(f, o.1, o.2);
            PriceRangeSlider.QuickActive(PriceRangeSlider.LocalStart(g.servingsMin, MinServings),
                                         PriceRangeSlider.LocalStart(g.servingsMax, MaxServings), o.1, o.2)
  {
  }

  /** `getLabel()`. */
  function Label(localMin: int, localMax: int): (r: string)
  {
    if localMin == localMax then IntToString(localMin) + " 人"
    else if localMax >= MaxServings then IntToString(localMin) + "+ 人"
    else IntToString(localMin) + " - " + IntToString(localMax) + " 人"
  }

  /** For counts of people the three label forms are told apart by their
      marks: a '+' for an open top, a '-' for a range, neither for one
      number. */
  lemma Label_Forms(localMin: nat, localMax: nat)
    ensures '+' in Label(localMin, localMax) <==> localMin != localMax && localMax >= MaxServings
    ensures '-' in Label(localMin, localMax) <==> localMin != localMax && localMax < MaxServings
  {
    var a := NatToString(localMin);
    var b := NatToString(localMax);
    assert IntToString(localMin) == a && IntToString(localMax) == b;
    assert '+' !in a && '-' !in a && '+' !in b && '-' !in b;
    if localMin == localMax {
      assert Label(localMin, localMax) == a + " 人";
    } else if localMax >= MaxServings {
      assert Label(localMin, localMax) == a + "+ 人";
      assert (a + "+ 人")[|a|] == '+';
    } else {
      assert Label(localMin, localMax) == a + " - " + b + " 人";
      assert (a + " - " + b + " 人")[|a| + 1] == '-';
    }
  }
}

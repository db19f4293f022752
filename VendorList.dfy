/** The vendor overview: one entry per vendor of the published plans with
    its plan count and price span, most plans first; the number of
    vendors of each type; the type and text filter over the entries; and
    the two click handlers that send the choice to the plan list. */
module VendorList {
  import opened Common
  import opened Types
  import opened UiFilters
  import opened Sorting
  import PlanStore

  datatype VendorStat = VendorStat(name: string, vtype: VendorType, count: nat, minPrice: int, maxPrice: int)

  /** `plan.vendorType || 'other'`. */
  function TypeOf(p: Plan): VendorType {
    if p.vendorType.Some? then p.vendorType.value else OtherVendor
  }

  /** `vendorMap.get(name)`: the position of the entry for `name`. */
  function Find(stats: seq<VendorStat>, name: string): (r: Option<nat>)
    ensures r.Some? ==> r.value < |stats| && stats[r.value].name == name
    ensures r.None? ==> forall i :: 0 <= i < |stats| ==> stats[i].name != name
  {
    if stats == [] then None
    else if stats[0].name == name then Some(0)
    else
      var k := Find(stats[1..], name);
      if k.Some? then Some(k.value + 1) else None
  }

  /** A plan of a vendor already listed: one more plan, the span widened. */
  function Bump(e: VendorStat, price: int): (r: VendorStat)
    ensures r.name == e.name && r.vtype == e.vtype && r.count == e.count + 1
    ensures r.minPrice <= price <= r.maxPrice
    ensures e.minPrice <= e.maxPrice ==> r.minPrice <= e.minPrice && e.maxPrice <= r.maxPrice
  {
    e.(count := e.count + 1, minPrice := Min(e.minPrice, price), maxPrice := Max(e.maxPrice, price))
  }

  /** The entry a vendor's first plan creates. */
  function Fresh(p: Plan): VendorStat {
    VendorStat(p.vendorName, TypeOf(p), 1, p.priceDiscount, p.priceDiscount)
  }

  /** One turn of the loop: update the vendor's entry or add one at the end
      (a `Map` keeps insertion order). */
  function Upsert(stats: seq<VendorStat>, p: Plan): seq<VendorStat> {
    var k := Find(stats, p.vendorName);
    if k.Some? then stats[k.value := Bump(stats[k.value], p.priceDiscount)] else stats + [Fresh(p)]
  }

  /** `Array.from(vendorMap.values())` after the loop over `plans`. */
  function Tally(plans: seq<Plan>): seq<VendorStat>
    decreases |plans|
  {
    if plans == [] then [] else Upsert(Tally(plans[..|plans| - 1]), plans[|plans| - 1])
  }

  function CountKey(e: VendorStat): real { e.count as real }

  /** `vendorStats`: the published plans tallied by vendor name, the
      entries ordered by plan count, most first (a stable sort). */
  method VendorStats(plans: seq<Plan>) returns (r: seq<VendorStat>)
    ensures r == SortDesc(Tally(PublishedOf(plans)), CountKey)
  {
    var published := PublishedOf(plans);
    var entries: seq<VendorStat> := [];
    var i := 0;
    while i < |published|
      invariant 0 <= i <= |published|
      invariant entries == Tally(published[..i])
    {
      var plan := published[i];
      var k := Find(entries, plan.vendorName);
      if k.Some? {
        entries := entries[k.value := Bump(entries[k.value], plan.priceDiscount)];
      } else {
        entries := entries + [Fresh(plan)];
      }
      assert published[..i + 1][..i] == published[..i];
      i := i + 1;
    }
    assert published[..i] == published;
    r := SortDesc(entries, CountKey);
  }

  // ------------------------------------------------------------ the tally

  /** No two entries share a vendor name. */
  predicate Distinct(stats: seq<VendorStat>) {
    forall i, j :: 0 <= i < j < |stats| ==> stats[i].name != stats[j].name
  }

  /** How many of `plans` carry the vendor name `name`. */
  function NameCount(plans: seq<Plan>, name: string): nat
    decreases |plans|
  {
    if plans == [] then 0
    else NameCount(plans[..|plans| - 1], name) + (if plans[|plans| - 1].vendorName == name then 1 else 0)
  }

  lemma {:induction false} NameCount_None(plans: seq<Plan>, name: string)
    requires forall j :: 0 <= j < |plans| ==> plans[j].vendorName != name
    ensures NameCount(plans, name) == 0
    decreases |plans|
  {
    if plans != [] {
      NameCount_None(plans[..|plans| - 1], name);
    }
  }

  /** Every vendor of the plans has an entry, and every entry is a vendor
      of the plans. */
  lemma Tally_Covers(plans: seq<Plan>, name: string)
    ensures Find(Tally(plans), name).Some? <==> exists j :: 0 <= j < |plans| && plans[j].vendorName == name
  {
    if Find(Tally(plans), name).Some? {
      Tally_Sound(plans, name);
    }
    if exists j :: 0 <= j < |plans| && plans[j].vendorName == name {
      var j :| 0 <= j < |plans| && plans[j].vendorName == name;
      Tally_Complete(plans, j);
    }
  }

  lemma {:induction false} Tally_Sound(plans: seq<Plan>, name: string)
    requires Find(Tally(plans), name).Some?
    ensures exists j :: 0 <= j < |plans| && plans[j].vendorName == name
    decreases |plans|
  {
    var init := plans[..|plans| - 1];
    var p := plans[|plans| - 1];
    var s := Tally(init);
    var k := Find(s, p.vendorName);
    var t := Tally(plans);
    var i := Find(t, name).value;
    if p.vendorName == name {
      assert plans[|plans| - 1].vendorName == name;
    } else {
      assert i < |s| && s[i].name == name;
      Tally_Sound(init, name);
      var j :| 0 <= j < |init| && init[j].vendorName == name;
      assert plans[j].vendorName == name;
    }
  }

  lemma {:induction false} Tally_Complete(plans: seq<Plan>, j: nat)
    requires j < |plans|
    ensures Find(Tally(plans), plans[j].vendorName).Some?
    decreases |plans|
  {
    var init := plans[..|plans| - 1];
    var p := plans[|plans| - 1];
    var name := plans[j].vendorName;
    var s := Tally(init);
    var k := Find(s, p.vendorName);
    var t := Tally(plans);
    if j < |init| {
      Tally_Complete(init, j);
      assert init[j].vendorName == name;
      var i := Find(s, name).value;
      assert t[i].name == name;
    } else if k.Some? {
      assert t[k.value].name == name;
    } else {
      assert t[|s|].name == name;
    }
  }

  /** The tally never lists a vendor twice. */
  lemma {:induction false} Tally_Distinct(plans: seq<Plan>)
    ensures Distinct(Tally(plans))
    decreases |plans|
  {
    if plans != [] {
      var init := plans[..|plans| - 1];
      var p := plans[|plans| - 1];
      Tally_Distinct(init);
      var s := Tally(init);
      var t := Tally(plans);
      forall i, j | 0 <= i < j < |t| ensures t[i].name != t[j].name {
        if j == |s| {
          assert Find(s, p.vendorName).None?;
        } else {
          assert t[i].name == s[i].name && t[j].name == s[j].name;
        }
      }
    }
  }

  /** What an entry says about the vendor's plans: how many there are, and
      a span holding every one of their prices. */
  predicate Describes(e: VendorStat, plans: seq<Plan>) {
    e.count == NameCount(plans, e.name) && e.count >= 1 && e.minPrice <= e.maxPrice
    && forall j :: 0 <= j < |plans| && plans[j].vendorName == e.name ==> e.minPrice <= plans[j].priceDiscount <= e.maxPrice
  }

  /** An entry of the other vendors is not affected by one more plan. */
  lemma Describes_Other(e: VendorStat, init: seq<Plan>, p: Plan)
    requires Describes(e, init) && e.name != p.vendorName
    ensures Describes(e, init + [p])
  {
    assert (init + [p])[..|init|] == init;
  }

  lemma {:induction false} Tally_Describes(plans: seq<Plan>)
    ensures forall i :: 0 <= i < |Tally(plans)| ==> Describes(Tally(plans)[i], plans)
    decreases |plans|
  {
    if plans != [] {
      var init := plans[..|plans| - 1];
      var p := plans[|plans| - 1];
      assert plans == init + [p];
      Tally_Describes(init);
      Tally_Distinct(init);
      var s := Tally(init);
      var k := Find(s, p.vendorName);
      var t := Tally(plans);
      forall i | 0 <= i < |t| ensures Describes(t[i], plans) {
        if i < |s| && !(k.Some? && i == k.value) {
          assert t[i] == s[i];
          Describes_Other(s[i], init, p);
        } else if k.Some? {
          assert plans[..|plans| - 1] == init;
        } else {
          Tally_Covers(init, p.vendorName);
          NameCount_None(init, p.vendorName);
          assert plans[..|plans| - 1] == init;
        }
      }
    }
  }

  /** The total of the entries' counts. */
  function SumCounts(stats: seq<VendorStat>): int {
    if stats == [] then 0 else stats[0].count + SumCounts(stats[1..])
  }

  lemma {:induction false} SumCounts_Bump(stats: seq<VendorStat>, k: nat, price: int)
    requires k < |stats|
    ensures SumCounts(stats[k := Bump(stats[k], price)]) == SumCounts(stats) + 1
  {
    if k > 0 {
      SumCounts_Bump(stats[1..], k - 1, price);
      assert stats[k := Bump(stats[k], price)][1..] == stats[1..][k - 1 := Bump(stats[k], price)];
    }
  }

  lemma {:induction false} SumCounts_Append(stats: seq<VendorStat>, e: VendorStat)
    ensures SumCounts(stats + [e]) == SumCounts(stats) + e.count
  {
    if stats != [] {
      SumCounts_Append(stats[1..], e);
      assert (stats + [e])[1..] == stats[1..] + [e];
    }
  }

  /** The counts add up to the number of plans tallied. */
  lemma {:induction false} Tally_Sum(plans: seq<Plan>)
    ensures SumCounts(Tally(plans)) == |plans|
    decreases |plans|
  {
    if plans != [] {
      var init := plans[..|plans| - 1];
      var p := plans[|plans| - 1];
      Tally_Sum(init);
      var s := Tally(init);
      var k := Find(s, p.vendorName);
      if k.Some? {
        SumCounts_Bump(s, k.value, p.priceDiscount);
      } else {
        SumCounts_Append(s, Fresh(p));
      }
    }
  }

  // -------------------------------------------------------- after sorting

  lemma {:induction false} SumCounts_Insert(x: VendorStat, s: seq<VendorStat>)
    ensures SumCounts(Insert(x, s, CountKey)) == SumCounts(s) + x.count
  {
    if s != [] && CountKey(s[0]) >= CountKey(x) {
      SumCounts_Insert(x, s[1..]);
    }
  }

  lemma SumCounts_Last(s: seq<VendorStat>)
    requires s != []
    ensures SumCounts(s) == SumCounts(s[..|s| - 1]) + s[|s| - 1].count
  {
    SumCounts_Append(s[..|s| - 1], s[|s| - 1]);
    assert s == s[..|s| - 1] + [s[|s| - 1]];
  }

  lemma {:induction false} SumCounts_Sort(s: seq<VendorStat>)
    ensures SumCounts(SortDesc(s, CountKey)) == SumCounts(s)
    decreases |s|
  {
    if s != [] {
      var init := s[..|s| - 1];
      var x := s[|s| - 1];
      SumCounts_Sort(init);
      assert SortDesc(s, CountKey) == Insert(x, SortDesc(init, CountKey), CountKey);
      SumCounts_Insert(x, SortDesc(init, CountKey));
      SumCounts_Last(s);
    }
  }

  lemma {:induction false} Insert_Distinct(x: VendorStat, s: seq<VendorStat>)
    requires Distinct(s) && forall i :: 0 <= i < |s| ==> s[i].name != x.name
    ensures Distinct(Insert(x, s, CountKey))
  {
    if s != [] && CountKey(s[0]) >= CountKey(x) {
      Insert_Distinct(x, s[1..]);
      var r := Insert(x, s[1..], CountKey);
      Insert_Props(x, s[1..], CountKey);
      forall j | 0 <= j < |r| ensures r[j].name != s[0].name {
        assert r[j] in multiset(s[1..]) + multiset{x};
        if r[j] != x {
          var m :| 0 <= m < |s[1..]| && s[1..][m] == r[j];
          assert s[m + 1] == r[j];
        }
      }
    }
  }

  lemma {:induction false} SortDesc_Distinct(s: seq<VendorStat>)
    requires Distinct(s)
    ensures Distinct(SortDesc(s, CountKey))
    decreases |s|
  {
    if s != [] {
      var init := s[..|s| - 1];
      var x := s[|s| - 1];
      SortDesc_Distinct(init);
      var t := SortDesc(init, CountKey);
      forall i | 0 <= i < |t| ensures t[i].name != x.name {
        SortDesc_Mem(init, CountKey, t[i]);
        var m :| 0 <= m < |init| && init[m] == t[i];
        assert s[m] == t[i];
      }
      Insert_Distinct(x, t);
    }
  }

  /** `vendorStats`: one entry per published vendor, none twice, each
      counting that vendor's published plans with a span over their
      prices, the counts adding up to the number of published plans, and
      the most plans first. */
  lemma VendorStats_Props(plans: seq<Plan>, name: string)
    ensures var r := SortDesc(Tally(PublishedOf(plans)), CountKey);
            Distinct(r) && SumCounts(r) == |PublishedOf(plans)| && SortedDesc(r, CountKey)
            && (forall i :: 0 <= i < |r| ==> Describes(r[i], PublishedOf(plans)))
            && ((exists i :: 0 <= i < |r| && r[i].name == name) <==>
                (exists j :: 0 <= j < |PublishedOf(plans)| && PublishedOf(plans)[j].vendorName == name))
  {
    var pub := PublishedOf(plans);
    var t := Tally(pub);
    var r := SortDesc(t, CountKey);
    Tally_Distinct(pub);
    SortDesc_Distinct(t);
    Tally_Sum(pub);
    SumCounts_Sort(t);
    Tally_Describes(pub);
    Tally_Covers(pub, name);
    forall i | 0 <= i < |r| ensures Describes(r[i], pub) {
      SortDesc_Mem(t, CountKey, r[i]);
    }
    if exists i :: 0 <= i < |r| && r[i].name == name {
      var i :| 0 <= i < |r| && r[i].name == name;
      SortDesc_Mem(t, CountKey, r[i]);
    }
    if Find(t, name).Some? {
      SortDesc_Mem(t, CountKey, t[Find(t, name).value]);
    }
  }

  // ------------------------------------------------------------ per type

  /** How many entries are of type `t`. */
  function TypeCount(vendors: seq<VendorStat>, t: VendorType): nat
    decreases |vendors|
  {
    if vendors == [] then 0
    else TypeCount(vendors[..|vendors| - 1], t) + (if vendors[|vendors| - 1].vtype == t then 1 else 0)
  }

  /** `typeStats`: a zero for every type, then one more for each entry's
      type. */
  method TypeStats(vendors: seq<VendorStat>) returns (stats: map<VendorType, nat>)
    ensures forall t :: t in stats && stats[t] == TypeCount(vendors, t)
  {
    stats := map[Hotel := 0, Restaurant := 0, Brand := 0, Convenience := 0, Hypermarket := 0,
                 VegetarianVendor := 0, OtherVendor := 0];
    forall t ensures t in stats && stats[t] == TypeCount(vendors[..0], t) {
      match t
      case Hotel =>
      case Restaurant =>
      case Brand =>
      case Convenience =>
      case Hypermarket =>
      case VegetarianVendor =>
      case OtherVendor =>
    }
    var i := 0;
    while i < |vendors|
      invariant 0 <= i <= |vendors|
      invariant forall t :: t in stats && stats[t] == TypeCount(vendors[..i], t)
    {
      var v := vendors[i];
      stats := stats[v.vtype := stats[v.vtype] + 1];
      assert vendors[..i + 1][..i] == vendors[..i];
      i := i + 1;
    }
    assert vendors[..i] == vendors;
  }

  /** Over all seven types the counts add up to the number of entries. */
  lemma {:induction false} TypeCount_Total(vendors: seq<VendorStat>)
    ensures TypeCount(vendors, Hotel) + TypeCount(vendors, Restaurant) + TypeCount(vendors, Brand)
            + TypeCount(vendors, Convenience) + TypeCount(vendors, Hypermarket)
            + TypeCount(vendors, VegetarianVendor) + TypeCount(vendors, OtherVendor) == |vendors|
    decreases |vendors|
  {
    if vendors != [] {
      TypeCount_Total(vendors[..|vendors| - 1]);
    }
  }

  // ----------------------------------------------------------- filtering

  predicate NameMatches(v: VendorStat, query: string) {
    Contains(Lower(v.name), Lower(query))
  }

  /** `filteredVendors`: the chosen type unless `'all'`, then the
      case-insensitive name search unless the query is empty. */
  function FilteredVendors(vendors: seq<VendorStat>, selected: Choice<VendorType>, query: string): (r: seq<VendorStat>)
    ensures |r| <= |vendors|
  {
    var byType := if selected.Only? then Filter((v: VendorStat) => v.vtype == selected.value, vendors) else vendors;
    if query == "" then byType else Filter((v: VendorStat) => NameMatches(v, query), byType)
  }

  /** An entry is shown exactly when it is of the chosen type and its name
      holds the query, letters compared without case. */
  lemma FilteredVendors_Mem(vendors: seq<VendorStat>, selected: Choice<VendorType>, query: string, v: VendorStat)
    ensures v in FilteredVendors(vendors, selected, query) <==>
              (v in vendors && (selected.Only? ==> v.vtype == selected.value)
               && (query != "" ==> NameMatches(v, query)))
  {
    var byType := if selected.Only? then Filter((v: VendorStat) => v.vtype == selected.value, vendors) else vendors;
    if selected.Only? {
      Filter_Mem((v: VendorStat) => v.vtype == selected.value, vendors, v);
    }
    if query != "" {
      Filter_Mem((v: VendorStat) => NameMatches(v, query), byType, v);
    }
  }

  /** The empty query with `'all'` shows every entry, and a query finds
      the same entries as its lower-case form. */
  lemma FilteredVendors_Case(vendors: seq<VendorStat>, selected: Choice<VendorType>, query: string, v: VendorStat)
    ensures FilteredVendors(vendors, AllChoice, "") == vendors
    ensures v in FilteredVendors(vendors, selected, Lower(query)) <==> v in FilteredVendors(vendors, selected, query)
  {
    Lower_Idempotent(query);
    FilteredVendors_Mem(vendors, selected, query, v);
    FilteredVendors_Mem(vendors, selected, Lower(query), v);
  }

  // ------------------------------------------------------ click handlers

  /** `handleVendorClick(name)`: the defaults, published plans only, with
      the vendor's name as the search text. */
  function HandleVendorClick(name: string): (r: Filters)
    ensures StoreView(r) == PlanStore.DefaultFilters.(searchQuery := name)
  {
    ResetPublished().(searchQuery := Some(name))
  }

  /** `handleTypeClick(type)`: the defaults with the vendor type set. The
      store's filter run does not read that field, so the plan list it
      leads to is the one the defaults give. */
  function HandleTypeClick(t: VendorType): (r: Filters)
    ensures r.vendorType == Some(Only(t)) && r.onlyPublished == Some(true)
    ensures StoreView(r) == PlanStore.DefaultFilters
  {
    Defaults_StoreView();
    ResetPublished().(vendorType := Some(Only(t)))
  }
}

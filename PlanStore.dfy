/** The client-side catalogue store (src/stores/planStore.ts): the plan list,
    the comparison tray (at most four plans), favourites, the recently viewed
    list (at most twenty), per-plan notes, the filter chain with its sort, the
    status counts and the CSV export. The store's state is one record that
    every action replaces by an updated copy, as the store's `set` does. */
module PlanStore {
  import opened Common
  import opened Types
  import Csv

  // ------------------------------------------------------------ the filters

  datatype TagLogic = And | Or

  /** The filter fields `getFilteredPlans` reads. An absent text field is
      the empty string; an absent or 'all' choice is `None`. */
  datatype FilterState = FilterState(
    priceMin: Option<int>,
    priceMax: Option<int>,
    pricePerPersonMax: Option<int>,
    servingsMin: Option<int>,
    servingsMax: Option<int>,
    shippingType: Option<ShippingType>,
    storageType: Option<StorageType>,
    targetDate: string,
    mustBeBeforeDeadline: bool,
    canSelectDate: Option<bool>,
    tags: seq<string>,
    tagLogic: Option<TagLogic>,
    searchQuery: string,
    onlyPublished: bool,
    region: Option<TaiwanRegion>,
    city: Option<TaiwanCity>,
    showFavoritesOnly: bool,
    showHistoryOnly: bool,
    excludeKeywords: seq<string>
  )

  /** defaultFilters: only published plans, every shipping and storage type. */
  const DefaultFilters := FilterState(None, None, None, None, None, None, None, "", false, None,
                                      [], None, "", true, None, None, false, false, [])

  /** What a filter run reads besides the plans: the filters, the favourite
      and history lists, and today's date as `YYYY-MM-DD`. */
  datatype FilterContext = FilterContext(filters: FilterState, favoriteIds: seq<string>,
                                         historyIds: seq<string>, today: string)

  function TextOr(s: Option<string>, default: string): string {
    if Present(s) then s.value else default
  }

  /** The search: the lower-cased query occurs in the lower-cased title,
      vendor name, some tag or some dish. */
  predicate SearchHit(query: string, p: Plan) {
    var q := Lower(query);
    Contains(Lower(p.title), q) || Contains(Lower(p.vendorName), q)
    || (exists i | 0 <= i < |p.tags| :: Contains(Lower(p.tags[i]), q))
    || (exists i | 0 <= i < |p.dishes| :: Contains(Lower(p.dishes[i]), q))
  }

  /** `Math.round(price / servings) <= max`, with the division by zero of
      JavaScript: a negative price gives -Infinity (kept), a positive one
      Infinity and a zero one NaN (both dropped). */
  predicate PerPersonWithin(price: int, servings: int, max: int) {
    if servings > 0 then RoundDiv(price, servings) <= max
    else if servings < 0 then RoundDiv(-price, -servings) <= max
    else price < 0
  }

  /** The text the exclusion keywords are searched in. */
  function ExcludeText(p: Plan): string {
    Join(p.dishes + p.tags + [p.title, TextOr(p.description, "")], " ")
  }

  /** The filter stages, in the order the store applies them. */
  datatype Stage =
    | OnlyPublished | Search | PriceMin | PriceMax | PerPerson | ServingsMin | ServingsMax
    | Shipping | Storage | Region | City | Favorites | History | CanSelectDate | Tags
    | Deadline | Exclude | TargetDate

  const Stages: seq<Stage> :=
    [OnlyPublished, Search, PriceMin, PriceMax, PerPerson, ServingsMin, ServingsMax,
     Shipping, Storage, Region, City, Favorites, History, CanSelectDate, Tags,
     Deadline, Exclude, TargetDate]

  /** Whether the stage's `if` guard holds. */
  predicate Active(st: Stage, ctx: FilterContext) {
    var f := ctx.filters;
    match st
    case OnlyPublished => f.onlyPublished
    case Search => f.searchQuery != ""
    case PriceMin => f.priceMin.Some?
    case PriceMax => f.priceMax.Some?
    case PerPerson => f.pricePerPersonMax.Some?
    case ServingsMin => f.servingsMin.Some?
    case ServingsMax => f.servingsMax.Some?
    case Shipping => f.shippingType.Some?
    case Storage => f.storageType.Some?
    case Region => f.region.Some?
    case City => f.city.Some?
    case Favorites => f.showFavoritesOnly
    case History => f.showHistoryOnly
    case CanSelectDate => f.canSelectDate.Some?
    case Tags => |f.tags| > 0
    case Deadline => f.mustBeBeforeDeadline
    case Exclude => |f.excludeKeywords| > 0
    case TargetDate => f.targetDate != ""
  }

  /** The stage's filter callback. */
  predicate Test(st: Stage, ctx: FilterContext, p: Plan)
    requires Active(st, ctx)
  {
    var f := ctx.filters;
    match st
    case OnlyPublished => p.status == Published
    case Search => SearchHit(f.searchQuery, p)
    case PriceMin => p.priceDiscount >= f.priceMin.value
    case PriceMax => p.priceDiscount <= f.priceMax.value
    case PerPerson => PerPersonWithin(p.priceDiscount, p.servingsMin, f.pricePerPersonMax.value)
    case ServingsMin => p.servingsMax.GetOr(p.servingsMin) >= f.servingsMin.value
    case ServingsMax => p.servingsMin <= f.servingsMax.value
    case Shipping => p.shippingType == f.shippingType.value || p.shippingType == Both
    case Storage => p.storageType == f.storageType.value
    case Region => p.region == f.region || p.region == Some(Nationwide)
    case City => p.city == f.city
    case Favorites => p.id in ctx.favoriteIds
    case History => p.id in ctx.historyIds
    case CanSelectDate => p.canSelectDate == f.canSelectDate
    case Tags =>
      if f.tagLogic == Some(And) then forall i | 0 <= i < |f.tags| :: f.tags[i] in p.tags
      else exists i | 0 <= i < |f.tags| :: f.tags[i] in p.tags
    case Deadline => !Present(p.orderDeadline) || StrLt(ctx.today, p.orderDeadline.value)
    case Exclude => forall i | 0 <= i < |f.excludeKeywords| :: !Contains(ExcludeText(p), f.excludeKeywords[i])
    case TargetDate =>
      (!Present(p.fulfillStart) && !Present(p.fulfillEnd))
      || (StrLe(TextOr(p.fulfillStart, "1900-01-01"), f.targetDate)
          && StrLe(f.targetDate, TextOr(p.fulfillEnd, "2100-12-31")))
  }

  /** A plan passes a stage when the stage is off or its callback holds. */
  predicate Passes(st: Stage, ctx: FilterContext, p: Plan) {
    !Active(st, ctx) || Test(st, ctx, p)
  }

  /** A plan passes the first `n` stages. */
  predicate PassesFirst(n: nat, ctx: FilterContext, p: Plan)
    requires n <= |Stages|
  {
    n == 0 || (PassesFirst(n - 1, ctx, p) && Passes(Stages[n - 1], ctx, p))
  }

  /** A plan passes every filter. */
  predicate Matches(ctx: FilterContext, p: Plan) {
    PassesFirst(|Stages|, ctx, p)
  }

  /** `if (guard) filtered = filtered.filter(callback)`. */
  function ApplyStage(st: Stage, ctx: FilterContext, s: seq<Plan>): (r: seq<Plan>)
    ensures forall i :: 0 <= i < |r| ==> Passes(st, ctx, r[i])
  {
    if Active(st, ctx) then Filter((p: Plan) => Test(st, ctx, p), s) else s
  }

  /** The plans that pass the first `n` stages, in their original order. */
  function Prefix(n: nat, ctx: FilterContext, plans: seq<Plan>): seq<Plan>
    requires n <= |Stages|
  {
    Filter((p: Plan) => PassesFirst(n, ctx, p), plans)
  }

  /** The plans that pass every filter, in their original order. */
  function Matching(ctx: FilterContext, plans: seq<Plan>): (r: seq<Plan>)
    ensures forall i :: 0 <= i < |r| ==> Matches(ctx, r[i])
    ensures forall p :: p in plans && Matches(ctx, p) <==> p in r
  {
    var r := Filter((p: Plan) => Matches(ctx, p), plans);
    assert forall p :: p in plans && Matches(ctx, p) <==> p in r by {
      forall p ensures p in plans && Matches(ctx, p) <==> p in r {
        Filter_Mem((p: Plan) => Matches(ctx, p), plans, p);
      }
    }
    r
  }

  /** No stage has run yet. */
  lemma Prefix_Zero(ctx: FilterContext, plans: seq<Plan>)
    ensures Prefix(0, ctx, plans) == plans
  {
    Filter_All((p: Plan) => PassesFirst(0, ctx, p), plans);
  }

  /** Applying stage `n` after the first `n` stages is filtering by the
      first `n + 1`. */
  lemma ApplyStage_Step(n: nat, ctx: FilterContext, plans: seq<Plan>)
    requires n < |Stages|
    ensures ApplyStage(Stages[n], ctx, Prefix(n, ctx, plans)) == Prefix(n + 1, ctx, plans)
  {
    var st := Stages[n];
    var f := (p: Plan) => PassesFirst(n, ctx, p);
    var h := (p: Plan) => PassesFirst(n + 1, ctx, p);
    if Active(st, ctx) {
      Filter_Filter(f, (p: Plan) => Test(st, ctx, p), h, plans);
    } else {
      assert forall i :: 0 <= i < |plans| ==> h(plans[i]) == f(plans[i]);
      Filter_Filter(f, (p: Plan) => true, h, plans);
      Filter_All((p: Plan) => true, Filter(f, plans));
    }
  }

  /** `if (guard) filtered = filtered.filter(callback)` for stage `n`. */
  method RunStage(n: nat, ctx: FilterContext, plans: seq<Plan>, filtered: seq<Plan>) returns (r: seq<Plan>)
    requires n < |Stages| && filtered == Prefix(n, ctx, plans)
    ensures r == Prefix(n + 1, ctx, plans)
  {
    ApplyStage_Step(n, ctx, plans);
    if Active(Stages[n], ctx) {
      r := Filter((p: Plan) => Test(Stages[n], ctx, p), filtered);
    } else {
      r := filtered;
    }
  }

  /** After the last stage the result is the matching plans. */
  lemma Prefix_All(ctx: FilterContext, plans: seq<Plan>)
    ensures Prefix(|Stages|, ctx, plans) == Matching(ctx, plans)
  {
    assert forall i :: 0 <= i < |plans| ==> PassesFirst(|Stages|, ctx, plans[i]) == Matches(ctx, plans[i]);
    Filter_Filter((p: Plan) => PassesFirst(|Stages|, ctx, p), (p: Plan) => true, (p: Plan) => Matches(ctx, p), plans);
    Filter_All((p: Plan) => true, Prefix(|Stages|, ctx, plans));
  }

  /** `[...plans].sort(comparator)`: a sorted copy. */
  method SortedCopy(s: seq<Plan>, order: SortOption) returns (r: seq<Plan>)
    ensures multiset(r) == multiset(s)
    ensures SortedBy(order, r)
  {
    var a := new Plan[|s|](i requires 0 <= i < |s| => s[i]);
    assert a[..] == s;
    SortPlans(a, order);
    r := a[..];
  }

  /** Passing the first `n` stages is passing each of them. */
  lemma {:induction false} PassesFirst_Stage(n: nat, ctx: FilterContext, p: Plan, k: nat)
    requires n <= |Stages| && k < n
    ensures PassesFirst(n, ctx, p) <==> PassesFirst(k, ctx, p) && Passes(Stages[k], ctx, p) && PassesFirst_From(k + 1, n, ctx, p)
    decreases n
  {
    if k < n - 1 {
      PassesFirst_Stage(n - 1, ctx, p, k);
    }
  }

  /** A plan passes stages `k` up to `n - 1`. */
  predicate PassesFirst_From(k: nat, n: nat, ctx: FilterContext, p: Plan)
    requires n <= |Stages|
  {
    forall m | k <= m < n :: Passes(Stages[m], ctx, p)
  }

  /** A matching plan passes every single stage. */
  lemma Matches_Stage(ctx: FilterContext, p: Plan, k: nat)
    requires Matches(ctx, p) && k < |Stages|
    ensures Passes(Stages[k], ctx, p)
  {
    PassesFirst_Stage(|Stages|, ctx, p, k);
  }

  /** A matching plan passes the status, search and price filters. */
  lemma Matches_Price(ctx: FilterContext, p: Plan)
    requires Matches(ctx, p)
    ensures ctx.filters.onlyPublished ==> p.status == Published
    ensures ctx.filters.searchQuery != "" ==> SearchHit(ctx.filters.searchQuery, p)
    ensures ctx.filters.priceMin.Some? ==> ctx.filters.priceMin.value <= p.priceDiscount
    ensures ctx.filters.priceMax.Some? ==> p.priceDiscount <= ctx.filters.priceMax.value
    ensures ctx.filters.servingsMax.Some? ==> p.servingsMin <= ctx.filters.servingsMax.value
  {
    Matches_Stage(ctx, p, 0);
    Matches_Stage(ctx, p, 1);
    Matches_Stage(ctx, p, 2);
    Matches_Stage(ctx, p, 3);
    Matches_Stage(ctx, p, 6);
  }

  /** A matching plan passes the shipping, storage, region and city filters;
      a plan shipped both ways and a nationwide plan pass any choice. */
  lemma Matches_Place(ctx: FilterContext, p: Plan)
    requires Matches(ctx, p)
    ensures ctx.filters.shippingType.Some? ==> p.shippingType in {ctx.filters.shippingType.value, Both}
    ensures ctx.filters.storageType.Some? ==> p.storageType == ctx.filters.storageType.value
    ensures ctx.filters.region.Some? ==> p.region.Some? && p.region.value in {ctx.filters.region.value, Nationwide}
    ensures ctx.filters.city.Some? ==> p.city == ctx.filters.city
  {
    Matches_Stage(ctx, p, 7);
    Matches_Stage(ctx, p, 8);
    Matches_Stage(ctx, p, 9);
    Matches_Stage(ctx, p, 10);
  }

  /** A matching plan passes the favourites, history, deadline and
      exclusion filters. */
  lemma Matches_Lists(ctx: FilterContext, p: Plan)
    requires Matches(ctx, p)
    ensures ctx.filters.showFavoritesOnly ==> p.id in ctx.favoriteIds
    ensures ctx.filters.showHistoryOnly ==> p.id in ctx.historyIds
    ensures ctx.filters.mustBeBeforeDeadline && Present(p.orderDeadline) ==> StrLt(ctx.today, p.orderDeadline.value)
    ensures forall k :: 0 <= k < |ctx.filters.excludeKeywords| ==> !Contains(ExcludeText(p), ctx.filters.excludeKeywords[k])
  {
    Matches_Stage(ctx, p, 11);
    Matches_Stage(ctx, p, 12);
    Matches_Stage(ctx, p, 15);
    Matches_Stage(ctx, p, 16);
  }

  /** A matching plan covers the requested servings, costs at most the
      per-person limit, offers the requested date choice and, when it
      names a delivery window, the window holds the target date. */
  lemma Matches_Window(ctx: FilterContext, p: Plan)
    requires Matches(ctx, p)
    ensures ctx.filters.servingsMin.Some? ==> p.servingsMax.GetOr(p.servingsMin) >= ctx.filters.servingsMin.value
    ensures ctx.filters.pricePerPersonMax.Some? && p.servingsMin > 0 ==>
              RoundDiv(p.priceDiscount, p.servingsMin) <= ctx.filters.pricePerPersonMax.value
    ensures ctx.filters.canSelectDate.Some? ==> p.canSelectDate == ctx.filters.canSelectDate
    ensures ctx.filters.targetDate != "" && Present(p.fulfillStart) ==> StrLe(p.fulfillStart.value, ctx.filters.targetDate)
    ensures ctx.filters.targetDate != "" && Present(p.fulfillEnd) ==> StrLe(ctx.filters.targetDate, p.fulfillEnd.value)
  {
    Matches_Stage(ctx, p, 4);
    Matches_Stage(ctx, p, 5);
    Matches_Stage(ctx, p, 13);
    Matches_Stage(ctx, p, 17);
  }

  /** The tag filter: with AND every selected tag is on the plan, otherwise
      (OR, the default) at least one is. */
  lemma Matches_Tags(ctx: FilterContext, p: Plan)
    requires Matches(ctx, p) && |ctx.filters.tags| > 0
    ensures ctx.filters.tagLogic == Some(And) ==> forall t :: t in ctx.filters.tags ==> t in p.tags
    ensures ctx.filters.tagLogic != Some(And) ==> exists t :: t in ctx.filters.tags && t in p.tags
  {
    Matches_Stage(ctx, p, 14);
    if ctx.filters.tagLogic != Some(And) {
      var i :| 0 <= i < |ctx.filters.tags| && ctx.filters.tags[i] in p.tags;
      assert ctx.filters.tags[i] in ctx.filters.tags;
    }
  }

  // ---------------------------------------------------------------- sorting

  /** A number extended with JavaScript's infinities; NaN is not needed
      because 0/0 only arises for a plan sorted with the Infinity ones. */
  datatype Extended = NegInf | Fin(r: real) | PosInf

  predicate ExtLe(a: Extended, b: Extended) {
    match (a, b)
    case (NegInf, _) => true
    case (_, PosInf) => true
    case (Fin(x), Fin(y)) => x <= y
    case _ => false
  }

  /** `priceDiscount / servingsMin`. A zero price over zero servings (NaN,
      on which the comparator is inconsistent) is placed with Infinity. */
  function PerPersonKey(p: Plan): Extended {
    if p.servingsMin != 0 then Fin(p.priceDiscount as real / p.servingsMin as real)
    else if p.priceDiscount < 0 then NegInf
    else PosInf
  }

  /** Missing-last order on optional dates (`!a` sorts after everything). */
  predicate DateLe(a: Option<string>, b: Option<string>) {
    !Present(b) || (Present(a) && StrLe(a.value, b.value))
  }

  /** Whether the store sorts under this option (`distance_asc` without a
      location and `relevance` keep the filter order). */
  predicate Sorts(order: SortOption) {
    order != DistanceAsc && order != Relevance
  }

  /** `a` may come before `b` under the comparator of `order`. */
  predicate Le(order: SortOption, a: Plan, b: Plan) {
    match order
    case PriceAsc => a.priceDiscount <= b.priceDiscount
    case PriceDesc => a.priceDiscount >= b.priceDiscount
    case PricePerPersonAsc => ExtLe(PerPersonKey(a), PerPersonKey(b))
    case ServingsAsc => a.servingsMin <= b.servingsMin
    case ServingsDesc => a.servingsMin >= b.servingsMin
    case DeadlineAsc => DateLe(a.orderDeadline, b.orderDeadline)
    case FulfillAsc => DateLe(a.fulfillStart, b.fulfillStart)
    case UpdatedDesc => a.updatedAt >= b.updatedAt
    case VendorAsc => StrLe(a.vendorName, b.vendorName)
    case DistanceAsc => true
    case Relevance => true
  }

  lemma Le_Total(order: SortOption, a: Plan, b: Plan)
    ensures Le(order, a, b) || Le(order, b, a)
  {
    match order
    case DeadlineAsc =>
      if Present(a.orderDeadline) && Present(b.orderDeadline) {
        StrLe_Total(a.orderDeadline.value, b.orderDeadline.value);
      }
    case FulfillAsc =>
      if Present(a.fulfillStart) && Present(b.fulfillStart) {
        StrLe_Total(a.fulfillStart.value, b.fulfillStart.value);
      }
    case VendorAsc => StrLe_Total(a.vendorName, b.vendorName);
    case _ =>
  }

  lemma Le_Trans(order: SortOption, a: Plan, b: Plan, c: Plan)
    requires Le(order, a, b) && Le(order, b, c)
    ensures Le(order, a, c)
  {
    match order
    case DeadlineAsc =>
      if Present(a.orderDeadline) && Present(b.orderDeadline) && Present(c.orderDeadline) {
        StrLe_Trans(a.orderDeadline.value, b.orderDeadline.value, c.orderDeadline.value);
      }
    case FulfillAsc =>
      if Present(a.fulfillStart) && Present(b.fulfillStart) && Present(c.fulfillStart) {
        StrLe_Trans(a.fulfillStart.value, b.fulfillStart.value, c.fulfillStart.value);
      }
    case VendorAsc => StrLe_Trans(a.vendorName, b.vendorName, c.vendorName);
    case _ =>
  }

  predicate SortedBy(order: SortOption, s: seq<Plan>) {
    forall i, j :: 0 <= i < j < |s| ==> Le(order, s[i], s[j])
  }

  /** `price_asc` lists the prices in non-decreasing order and `price_desc`
      in non-increasing order. */
  lemma SortedBy_Price(s: seq<Plan>)
    ensures SortedBy(PriceAsc, s) ==> forall i, j :: 0 <= i < j < |s| ==> s[i].priceDiscount <= s[j].priceDiscount
    ensures SortedBy(PriceDesc, s) ==> forall i, j :: 0 <= i < j < |s| ==> s[i].priceDiscount >= s[j].priceDiscount
  {}

  /** Under `deadline_asc` every plan with a deadline precedes every plan
      without one. */
  lemma SortedBy_DeadlineMissingLast(s: seq<Plan>)
    requires SortedBy(DeadlineAsc, s)
    ensures forall i, j :: 0 <= i < j < |s| && !Present(s[i].orderDeadline) ==> !Present(s[j].orderDeadline)
  {}

  /** The first `i + 1` elements are in order, except that position `j`
      is not yet compared with the elements before it. */
  predicate SortedExcept(order: SortOption, s: seq<Plan>, i: int, j: int)
    requires 0 <= j <= i < |s|
  {
    forall k, l :: 0 <= k < l <= i && k != j && l != j ==> Le(order, s[k], s[l])
  }

  /** The element at `j` may precede every element after it up to `i`. */
  predicate LeAllAfter(order: SortOption, s: seq<Plan>, i: int, j: int)
    requires 0 <= j <= i < |s|
  {
    forall l :: j < l <= i ==> Le(order, s[j], s[l])
  }

  /** Swapping `s[j]` with its left neighbour when they are out of order
      moves the insertion point one place left. */
  lemma InsertStep(order: SortOption, s: seq<Plan>, i: int, j: int)
    requires 0 < j <= i < |s|
    requires SortedExcept(order, s, i, j) && LeAllAfter(order, s, i, j)
    requires !Le(order, s[j - 1], s[j])
    ensures SortedExcept(order, s[j - 1 := s[j]][j := s[j - 1]], i, j - 1)
    ensures LeAllAfter(order, s[j - 1 := s[j]][j := s[j - 1]], i, j - 1)
  {
    var t := s[j - 1 := s[j]][j := s[j - 1]];
    Le_Total(order, s[j - 1], s[j]);
    forall l | j - 1 < l <= i
      ensures Le(order, t[j - 1], t[l])
    {
      if l > j {
        Le_Trans(order, s[j], s[j - 1], s[l]);
      }
    }
  }

  /** Once `s[j]` is in order with its left neighbour, the prefix is sorted. */
  lemma InsertDone(order: SortOption, s: seq<Plan>, i: int, j: int)
    requires 0 <= j <= i < |s|
    requires SortedExcept(order, s, i, j) && LeAllAfter(order, s, i, j)
    requires j == 0 || Le(order, s[j - 1], s[j])
    ensures SortedBy(order, s[..i + 1])
  {
    forall k, l | 0 <= k < l <= i
      ensures Le(order, s[k], s[l])
    {
      if l == j && k < j - 1 {
        Le_Trans(order, s[k], s[j - 1], s[j]);
      }
    }
  }

  /** Exchanges `a[j - 1]` and `a[j]`. */
  method SwapLeft(a: array<Plan>, j: int)
    requires 0 < j < a.Length
    modifies a
    ensures a[..] == old(a[..])[j - 1 := old(a[j])][j := old(a[j - 1])]
    ensures multiset(a[..]) == multiset(old(a[..]))
  {
    a[j - 1], a[j] := a[j], a[j - 1];
  }

  /** `Array.prototype.sort` with the comparator of `order`, as an insertion
      sort that swaps neighbours. */
  method SortPlans(a: array<Plan>, order: SortOption)
    modifies a
    ensures SortedBy(order, a[..])
    ensures multiset(a[..]) == multiset(old(a[..]))
  {
    var i := 0;
    while i < a.Length
      invariant 0 <= i <= a.Length
      invariant SortedBy(order, a[..i])
      invariant multiset(a[..]) == multiset(old(a[..]))
    {
      var j := i;
      assert SortedExcept(order, a[..], i, j) by {
        assert forall k :: 0 <= k < i ==> a[..i][k] == a[k];
      }
      while j > 0 && !Le(order, a[j - 1], a[j])
        invariant 0 <= j <= i
        invariant multiset(a[..]) == multiset(old(a[..]))
        invariant SortedExcept(order, a[..], i, j) && LeAllAfter(order, a[..], i, j)
      {
        InsertStep(order, a[..], i, j);
        SwapLeft(a, j);
        j := j - 1;
      }
      InsertDone(order, a[..], i, j);
      assert a[..][..i + 1] == a[..i + 1];
      i := i + 1;
    }
    assert a[..a.Length] == a[..];
  }

  // ----------------------------------------------------------- store state

  datatype StoreState = StoreState(
    plans: seq<Plan>,
    filters: FilterState,
    sortBy: SortOption,
    comparisonIds: seq<string>,
    isCompareModalOpen: bool,
    favoriteIds: seq<string>,
    historyIds: seq<string>,
    notes: map<string, string>,
    error: Option<string>
  )

  /** The result of a database call followed by reloading all plans. */
  datatype DbOutcome = Reloaded(plans: seq<Plan>) | DbFailed(message: string)

  /** toggleComparison: a selected plan is removed; an unselected one is
      appended only while fewer than four are selected. */
  function ToggleComparisonIds(ids: seq<string>, id: string): (r: seq<string>)
    ensures id in ids ==> id !in r && forall x :: x in r <==> x in ids && x != id
    ensures id !in ids && |ids| < 4 ==> r == ids + [id]
    ensures id !in ids && |ids| >= 4 ==> r == ids
  {
    if id in ids then
      var r := Filter((x: string) => x != id, ids);
      assert forall x :: x in r <==> x in ids && x != id by {
        forall x ensures x in r <==> x in ids && x != id { Filter_Mem((x: string) => x != id, ids, x); }
      }
      r
    else if |ids| >= 4 then ids
    else ids + [id]
  }

  /** The tray stays duplicate-free and never holds more than four plans. */
  lemma ToggleComparison_Bounded(ids: seq<string>, id: string)
    requires NoDup(ids) && |ids| <= 4
    ensures NoDup(ToggleComparisonIds(ids, id)) && |ToggleComparisonIds(ids, id)| <= 4
  {
    if id in ids {
      Filter_NoDup((x: string) => x != id, ids);
    }
  }

  /** toggleFavorite: remove when present, else append. */
  function ToggleFavoriteIds(ids: seq<string>, id: string): (r: seq<string>)
    ensures id in r <==> id !in ids
    ensures forall x :: x != id ==> (x in r <==> x in ids)
  {
    if id in ids then
      var r := Filter((x: string) => x != id, ids);
      assert forall x :: x in r <==> x in ids && x != id by {
        forall x ensures x in r <==> x in ids && x != id { Filter_Mem((x: string) => x != id, ids, x); }
      }
      r
    else ids + [id]
  }

  /** Toggling a favourite twice restores every plan's membership, and on an
      unfavourited plan restores the list itself. */
  lemma ToggleFavorite_Twice(ids: seq<string>, id: string)
    ensures forall x :: x in ToggleFavoriteIds(ToggleFavoriteIds(ids, id), id) <==> x in ids
    ensures id !in ids ==> ToggleFavoriteIds(ToggleFavoriteIds(ids, id), id) == ids
  {
    if id !in ids {
      Filter_All((x: string) => x != id, ids);
      Filter_Append((x: string) => x != id, ids, [id]);
      assert Filter((x: string) => x != id, [id]) == [];
    }
  }

  const HistoryLimit := 20

  /** addToHistory: the id moves to the front, its other occurrences go,
      and the list is cut to twenty. */
  function AddToHistoryIds(ids: seq<string>, id: string): (r: seq<string>)
    ensures |r| == Min(HistoryLimit, 1 + |Filter((x: string) => x != id, ids)|) && r[0] == id
    ensures forall x :: x in r ==> x == id || x in ids
    ensures id !in r[1..]
    ensures r[1..] == Filter((x: string) => x != id, ids)[..|r| - 1]
  {
    var rest := Filter((x: string) => x != id, ids);
    var full := [id] + rest;
    var r := full[..Min(HistoryLimit, |full|)];
    assert |r[1..]| == |rest[..|r| - 1]|;
    forall k | 0 <= k < |r| - 1 ensures r[1..][k] == rest[..|r| - 1][k] {
      assert r[1..][k] == full[k + 1] == rest[k];
    }
    assert r[1..] == rest[..|r| - 1];
    forall x | x in r ensures x == id || x in ids {
      Filter_Mem((x: string) => x != id, ids, x);
    }
    Filter_Mem((x: string) => x != id, ids, id);
    r
  }

  /** A duplicate-free history stays duplicate-free. */
  lemma AddToHistory_NoDup(ids: seq<string>, id: string)
    requires NoDup(ids)
    ensures NoDup(AddToHistoryIds(ids, id))
  {
    var rest := Filter((x: string) => x != id, ids);
    Filter_NoDup((x: string) => x != id, ids);
    var r := AddToHistoryIds(ids, id);
    assert r[1..] == rest[..|r| - 1];
    forall i, j | 0 <= i < j < |r| ensures r[i] != r[j] {
      if i == 0 {
        assert r[j] == r[1..][j - 1];
        assert r[j] in r[1..];
      } else {
        assert r[i] == rest[i - 1] && r[j] == rest[j - 1];
      }
    }
  }

  /** Visiting the head of the history changes nothing but the cut. */
  lemma AddToHistory_Head(ids: seq<string>, id: string)
    requires NoDup(ids) && |ids| >= 1 && ids[0] == id && |ids| <= HistoryLimit
    ensures AddToHistoryIds(ids, id) == ids
  {
    var f := (x: string) => x != id;
    var t := ids[1..];
    forall i | 0 <= i < |t| ensures f(t[i]) { assert t[i] == ids[i + 1]; }
    Filter_All(f, t);
    assert ids == [id] + t;
    assert Filter(f, ids) == Filter(f, t);
  }

  /** setNote: a note that is blank after trimming deletes the plan's note,
      any other note is stored as given; other plans' notes are kept. */
  function SetNoteMap(notes: map<string, string>, planId: string, note: string): (r: map<string, string>)
    ensures IsBlank(note) ==> planId !in r
    ensures !IsBlank(note) ==> planId in r && r[planId] == note
    ensures forall k :: k != planId ==> (k in r <==> k in notes) && (k in r ==> r[k] == notes[k])
  {
    Trim_EmptyIffBlank(note);
    if Trim(note) != "" then notes[planId := note] else notes - {planId}
  }

  /** deleteNote. */
  function DeleteNoteMap(notes: map<string, string>, planId: string): (r: map<string, string>)
    ensures planId !in r
    ensures forall k :: k != planId ==> (k in r <==> k in notes) && (k in r ==> r[k] == notes[k])
  {
    notes - {planId}
  }

  /** Setting a note and then deleting it leaves the other notes as before. */
  lemma SetNote_DeleteNote(notes: map<string, string>, planId: string, note: string)
    ensures DeleteNoteMap(SetNoteMap(notes, planId, note), planId) == DeleteNoteMap(notes, planId)
  {}

  /** `ids.filter(x => !removed.includes(x))`. */
  function Without(ids: seq<string>, removed: seq<string>): (r: seq<string>)
    ensures forall x :: x in r <==> x in ids && x !in removed
  {
    var r := Filter((x: string) => x !in removed, ids);
    assert forall x :: x in r <==> x in ids && x !in removed by {
      forall x ensures x in r <==> x in ids && x !in removed { Filter_Mem((x: string) => x !in removed, ids, x); }
    }
    r
  }

  /** The first plan with the given id: `plans.find(p => p.id === id)`. */
  function FindPlan(plans: seq<Plan>, id: string): (r: Option<Plan>)
    ensures r.Some? ==> r.value in plans && r.value.id == id
    ensures r.None? ==> forall i :: 0 <= i < |plans| ==> plans[i].id != id
  {
    if plans == [] then None
    else if plans[0].id == id then Some(plans[0])
    else FindPlan(plans[1..], id)
  }

  /** `ids.map(find).filter(Boolean)`: the plans of the listed ids that
      exist, in the order of the ids. */
  function PlansOf(plans: seq<Plan>, ids: seq<string>): (r: seq<Plan>)
    ensures |r| <= |ids|
    ensures forall i :: 0 <= i < |r| ==> r[i] in plans && r[i].id in ids
  {
    if ids == [] then []
    else
      var rest := PlansOf(plans, ids[1..]);
      match FindPlan(plans, ids[0])
      case Some(p) => [p] + rest
      case None => rest
  }

  /** Every listed id that names a plan contributes its plan. */
  lemma {:induction false} PlansOf_Complete(plans: seq<Plan>, ids: seq<string>, k: nat)
    requires k < |ids| && FindPlan(plans, ids[k]).Some?
    ensures FindPlan(plans, ids[k]).value in PlansOf(plans, ids)
  {
    if k > 0 {
      PlansOf_Complete(plans, ids[1..], k - 1);
    }
  }

  /** getStatusCounts. */
  function StatusCount(plans: seq<Plan>, s: PlanStatus): (n: nat)
    ensures n <= |plans|
  {
    if plans == [] then 0
    else (if plans[0].status == s then 1 else 0) + StatusCount(plans[1..], s)
  }

  /** The three counts add up to the number of plans, since a modelled plan
      has one of the three declared statuses. */
  lemma {:induction false} StatusCounts_Sum(plans: seq<Plan>)
    ensures StatusCount(plans, Draft) + StatusCount(plans, Published) + StatusCount(plans, NeedsReview) == |plans|
  {
    if plans != [] {
      StatusCounts_Sum(plans[1..]);
    }
  }

  // -------------------------------------------------------------- CSV export

  const CsvHeaders: seq<string> :=
    ["餐廳名稱", "方案名稱", "原價", "優惠價", "運費", "份量(最少)", "份量(最多)", "配送方式",
     "保存方式", "地區", "縣市", "可指定日期", "訂購截止", "到貨開始", "到貨結束", "標籤", "菜色"]

  function ShippingCsvLabel(t: ShippingType): string {
    match t
    case Delivery => "宅配"
    case Pickup => "自取"
    case Both => "宅配/自取"
  }

  function StorageCsvLabel(t: StorageType): string {
    match t
    case Frozen => "冷凍"
    case Chilled => "冷藏"
    case RoomTemp => "常溫"
    case UnknownStorage => "未知"
  }

  /** One exported row, column by column as the headers name them. */
  function CsvRow(p: Plan): (r: seq<string>)
    ensures |r| == |CsvHeaders|
  {
    [p.vendorName,
     p.title,
     if p.priceOriginal.Some? then IntToString(p.priceOriginal.value) else "",
     IntToString(p.priceDiscount),
     if p.shippingFee.Some? then IntToString(p.shippingFee.value) else "0",
     IntToString(p.servingsMin),
     IntToString(p.servingsMax.GetOr(p.servingsMin)),
     ShippingCsvLabel(p.shippingType),
     StorageCsvLabel(p.storageType),
     if p.region.Some? then RegionName(p.region.value) else "",
     if p.city.Some? then CityName(p.city.value) else "",
     if p.canSelectDate == Some(true) then "是" else "否",
     TextOr(p.orderDeadline, ""),
     TextOr(p.fulfillStart, ""),
     TextOr(p.fulfillEnd, ""),
     Join(p.tags, "、"),
     Join(p.dishes, "、")]
  }

  function CsvRows(plans: seq<Plan>): (r: seq<seq<string>>)
    ensures |r| == |plans| && forall i :: 0 <= i < |plans| ==> r[i] == CsvRow(plans[i])
  {
    seq(|plans|, i requires 0 <= i < |plans| => CsvRow(plans[i]))
  }

  const Bom := "\U{FEFF}"

  /** The exported file: a byte-order mark, then the header and one record
      per plan, every cell quoted. */
  function ExportCsv(plans: seq<Plan>): (r: string)
    ensures StartsWith(r, Bom)
  {
    Bom + Csv.EncodeDoc([CsvHeaders] + CsvRows(plans))
  }

  /** Reading the file after its byte-order mark gives back the header and
      every plan's row. */
  lemma ExportCsv_RoundTrip(plans: seq<Plan>)
    ensures Csv.ReadDoc(ExportCsv(plans)[|Bom|..]) == Some([CsvHeaders] + CsvRows(plans))
  {
    var rows := [CsvHeaders] + CsvRows(plans);
    assert ExportCsv(plans)[|Bom|..] == Csv.EncodeDoc(rows);
    assert forall i :: 0 <= i < |rows| ==> |rows[i]| >= 1 by {
      forall i | 0 <= i < |rows| ensures |rows[i]| >= 1 {
        if i > 0 { assert rows[i] == CsvRow(plans[i - 1]); }
      }
    }
    Csv.ReadDoc_EncodeDoc(rows);
  }

  // ------------------------------------------------------------------ store

  /** The tray invariant. */
  predicate TrayValid(s: StoreState) {
    NoDup(s.comparisonIds) && |s.comparisonIds| <= 4
  }

  class PlanStore {
    var state: StoreState

    /** The initial store; favourites, history and notes come from the
        browser's storage. */
    constructor(storedFavorites: seq<string>, storedHistory: seq<string>, storedNotes: map<string, string>)
      ensures state == StoreState([], DefaultFilters, PriceAsc, [], false, storedFavorites, storedHistory, storedNotes, None)
      ensures TrayValid(state)
    {
      state := StoreState([], DefaultFilters, PriceAsc, [], false, storedFavorites, storedHistory, storedNotes, None);
    }

    /** loadPlans: the fetched plans replace the list; a failure records
        the error and keeps the plans. */
    method LoadPlans(outcome: DbOutcome)
      modifies this
      ensures outcome.Reloaded? ==> state == old(state).(plans := outcome.plans, error := None)
      ensures outcome.DbFailed? ==> state == old(state).(error := Some(outcome.message))
    {
      match outcome
      case Reloaded(plans) =>
        state := state.(plans := plans, error := None);
      case DbFailed(message) =>
        state := state.(error := Some(message));
    }

    /** addPlan, updatePlan and batchUpdateStatus: after the database calls
        the plans are reloaded; a failure records the error (and is thrown
        on, which the `None` result stands for). `newId` is the id the
        database gives a new plan. */
    method AddPlan(newId: string, outcome: DbOutcome) returns (r: Option<string>)
      modifies this
      ensures outcome.Reloaded? ==> state == old(state).(plans := outcome.plans) && r == Some(newId)
      ensures outcome.DbFailed? ==> state == old(state).(error := Some(outcome.message)) && r.None?
    {
      match outcome
      case Reloaded(plans) =>
        state := state.(plans := plans);
        r := Some(newId);
      case DbFailed(message) =>
        state := state.(error := Some(message));
        r := None;
    }

    method UpdatePlan(outcome: DbOutcome)
      modifies this
      ensures outcome.Reloaded? ==> state == old(state).(plans := outcome.plans)
      ensures outcome.DbFailed? ==> state == old(state).(error := Some(outcome.message))
    {
      match outcome
      case Reloaded(plans) =>
        state := state.(plans := plans);
      case DbFailed(message) =>
        state := state.(error := Some(message));
    }

    /** setFilters with the merged filter record already projected onto the
        fields the filter run reads, resetFilters, and setSortBy. */
    method SetFilters(merged: FilterState)
      modifies this
      ensures state == old(state).(filters := merged)
    {
      state := state.(filters := merged);
    }

    method ResetFilters()
      modifies this
      ensures state == old(state).(filters := DefaultFilters)
    {
      state := state.(filters := DefaultFilters);
    }

    method SetSortBy(sortBy: SortOption)
      modifies this
      ensures state == old(state).(sortBy := sortBy)
    {
      state := state.(sortBy := sortBy);
    }

    method SetCompareModalOpen(open: bool)
      modifies this
      ensures state == old(state).(isCompareModalOpen := open)
    {
      state := state.(isCompareModalOpen := open);
    }

    /** clearFavorites and clearHistory. */
    method ClearFavorites()
      modifies this
      ensures state == old(state).(favoriteIds := [])
    {
      state := state.(favoriteIds := []);
    }

    method ClearHistory()
      modifies this
      ensures state == old(state).(historyIds := [])
    {
      state := state.(historyIds := []);
    }

    method ToggleComparison(planId: string)
      requires TrayValid(state)
      modifies this
      ensures state == old(state).(comparisonIds := ToggleComparisonIds(old(state).comparisonIds, planId))
      ensures TrayValid(state)
    {
      ToggleComparison_Bounded(state.comparisonIds, planId);
      state := state.(comparisonIds := ToggleComparisonIds(state.comparisonIds, planId));
    }

    method ClearComparison()
      modifies this
      ensures state == old(state).(comparisonIds := [], isCompareModalOpen := false)
      ensures TrayValid(state)
    {
      state := state.(comparisonIds := [], isCompareModalOpen := false);
    }

    method ToggleFavorite(planId: string)
      modifies this
      ensures state == old(state).(favoriteIds := ToggleFavoriteIds(old(state).favoriteIds, planId))
    {
      state := state.(favoriteIds := ToggleFavoriteIds(state.favoriteIds, planId));
    }

    method AddToHistory(planId: string)
      modifies this
      ensures state == old(state).(historyIds := AddToHistoryIds(old(state).historyIds, planId))
      ensures |state.historyIds| <= HistoryLimit && state.historyIds[0] == planId
    {
      state := state.(historyIds := AddToHistoryIds(state.historyIds, planId));
    }

    method SetNote(planId: string, note: string)
      modifies this
      ensures state == old(state).(notes := SetNoteMap(old(state).notes, planId, note))
    {
      state := state.(notes := SetNoteMap(state.notes, planId, note));
    }

    method DeleteNote(planId: string)
      modifies this
      ensures state == old(state).(notes := DeleteNoteMap(old(state).notes, planId))
    {
      state := state.(notes := DeleteNoteMap(state.notes, planId));
    }

    /** getNote. */
    function GetNote(planId: string): (r: Option<string>)
      reads this
      ensures r.Some? <==> planId in state.notes
      ensures r.Some? ==> r.value == state.notes[planId]
    {
      if planId in state.notes then Some(state.notes[planId]) else None
    }

    /** deletePlan: after the database call the plans are reloaded and the
        id leaves the tray (favourites keep it); a failure records the error. */
    method DeletePlan(id: string, outcome: DbOutcome)
      requires TrayValid(state)
      modifies this
      ensures outcome.Reloaded? ==> state == old(state).(plans := outcome.plans, comparisonIds := Without(old(state).comparisonIds, [id]))
      ensures outcome.DbFailed? ==> state == old(state).(error := Some(outcome.message))
      ensures id !in state.comparisonIds || outcome.DbFailed?
      ensures TrayValid(state)
    {
      match outcome
      case Reloaded(plans) =>
        Filter_NoDup((x: string) => x !in [id], state.comparisonIds);
        state := state.(plans := plans, comparisonIds := Without(state.comparisonIds, [id]));
      case DbFailed(message) =>
        state := state.(error := Some(message));
    }

    /** batchDelete: every deleted id leaves both the tray and the favourites. */
    method BatchDelete(ids: seq<string>, outcome: DbOutcome)
      requires TrayValid(state)
      modifies this
      ensures outcome.Reloaded? ==> state == old(state).(plans := outcome.plans,
        comparisonIds := Without(old(state).comparisonIds, ids), favoriteIds := Without(old(state).favoriteIds, ids))
      ensures outcome.DbFailed? ==> state == old(state).(error := Some(outcome.message))
      ensures outcome.Reloaded? ==> forall x :: x in ids ==> x !in state.comparisonIds && x !in state.favoriteIds
      ensures TrayValid(state)
    {
      match outcome
      case Reloaded(plans) =>
        Filter_NoDup((x: string) => x !in ids, state.comparisonIds);
        state := state.(plans := plans, comparisonIds := Without(state.comparisonIds, ids),
                        favoriteIds := Without(state.favoriteIds, ids));
      case DbFailed(message) =>
        state := state.(error := Some(message));
    }

    /** getHistoryPlans, getComparisonPlans and getFavoritePlans: the plans
        of the listed ids, in the order of the list. */
    function HistoryPlans(): (r: seq<Plan>)
      reads this
      ensures r == PlansOf(state.plans, state.historyIds)
      ensures forall i :: 0 <= i < |r| ==> r[i] in state.plans && r[i].id in state.historyIds
    {
      PlansOf(state.plans, state.historyIds)
    }

    function ComparisonPlans(): (r: seq<Plan>)
      reads this
      ensures r == PlansOf(state.plans, state.comparisonIds)
      ensures |r| <= |state.comparisonIds|
      ensures forall i :: 0 <= i < |r| ==> r[i] in state.plans && r[i].id in state.comparisonIds
    {
      PlansOf(state.plans, state.comparisonIds)
    }

    function FavoritePlans(): (r: seq<Plan>)
      reads this
      ensures r == PlansOf(state.plans, state.favoriteIds)
      ensures forall i :: 0 <= i < |r| ==> r[i] in state.plans && r[i].id in state.favoriteIds
    {
      PlansOf(state.plans, state.favoriteIds)
    }

    /** The context a filter run reads from the store. */
    function Context(today: string): FilterContext
      reads this
    {
      FilterContext(state.filters, state.favoriteIds, state.historyIds, today)
    }

    /** getFilteredPlans: the filter stages in order, then the sort. The
        result holds exactly the matching plans; it is sorted when the
        option sorts and otherwise keeps the catalogue order. */
    method GetFilteredPlans(today: string) returns (r: seq<Plan>)
      ensures multiset(r) == multiset(Matching(Context(today), state.plans))
      ensures forall i :: 0 <= i < |r| ==> Matches(Context(today), r[i])
      ensures Sorts(state.sortBy) ==> SortedBy(state.sortBy, r)
      ensures !Sorts(state.sortBy) ==> r == Matching(Context(today), state.plans)
    {
      var ctx := Context(today);
      var plans := state.plans;
      var filtered := plans;
      Prefix_Zero(ctx, plans);
      filtered := RunStage(0, ctx, plans, filtered);
      filtered := RunStage(1, ctx, plans, filtered);
      filtered := RunStage(2, ctx, plans, filtered);
      filtered := RunStage(3, ctx, plans, filtered);
      filtered := RunStage(4, ctx, plans, filtered);
      filtered := RunStage(5, ctx, plans, filtered);
      filtered := RunStage(6, ctx, plans, filtered);
      filtered := RunStage(7, ctx, plans, filtered);
      filtered := RunStage(8, ctx, plans, filtered);
      filtered := RunStage(9, ctx, plans, filtered);
      filtered := RunStage(10, ctx, plans, filtered);
      filtered := RunStage(11, ctx, plans, filtered);
      filtered := RunStage(12, ctx, plans, filtered);
      filtered := RunStage(13, ctx, plans, filtered);
      filtered := RunStage(14, ctx, plans, filtered);
      filtered := RunStage(15, ctx, plans, filtered);
      filtered := RunStage(16, ctx, plans, filtered);
      filtered := RunStage(17, ctx, plans, filtered);
      Prefix_All(ctx, plans);
      if Sorts(state.sortBy) {
        r := SortedCopy(filtered, state.sortBy);
        forall i | 0 <= i < |r| ensures Matches(ctx, r[i]) {
          assert r[i] in multiset(filtered);
        }
      } else {
        r := filtered;
      }
    }

    /** getStatusCounts. */
    function StatusCounts(): (r: (nat, nat, nat))
      reads this
      ensures r.0 == StatusCount(state.plans, Draft) && r.1 == StatusCount(state.plans, Published)
      ensures r.2 == StatusCount(state.plans, NeedsReview)
      ensures r.0 + r.1 + r.2 == |state.plans|
    {
      StatusCounts_Sum(state.plans);
      (StatusCount(state.plans, Draft), StatusCount(state.plans, Published), StatusCount(state.plans, NeedsReview))
    }

    /** exportToCSV: the file for the currently filtered plans. */
    method ExportToCsv(today: string) returns (content: string)
      ensures exists shown: seq<Plan> ::
        content == ExportCsv(shown) && multiset(shown) == multiset(Matching(Context(today), state.plans))
    {
      var shown := GetFilteredPlans(today);
      content := ExportCsv(shown);
    }
  }
}

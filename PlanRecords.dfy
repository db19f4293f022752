/** The untyped plan records the data scripts under scripts/ read from and
    write back to the plan file, with JavaScript truthiness written out, and
    the classifiers several scripts share. A field a record lacks (or holds
    `null` in) is `None`. */
module PlanRecords {
  import opened Common
  import Types

  datatype PlanRecord = PlanRecord(
    id: string,
    vendorName: Option<string>,
    title: Option<string>,
    description: Option<string>,
    imageUrl: Option<string>,
    priceOriginal: Option<int>,
    priceDiscount: Option<int>,
    shippingFee: Option<int>,
    shippingType: Option<string>,
    shippingTypes: Option<seq<string>>,
    storageType: Option<string>,
    storageTypes: Option<seq<string>>,
    deliveryAreas: Option<seq<string>>,
    region: Option<string>,
    city: Option<string>,
    servingsMin: Option<int>,
    servingsMax: Option<int>,
    orderDeadline: Option<string>,
    fulfillStart: Option<string>,
    tags: Option<seq<string>>,
    dishes: Option<seq<string>>,
    vendorType: Option<string>,
    productType: Option<string>,
    cuisineStyle: Option<string>,
    priceLevel: Option<string>,
    familySize: Option<string>,
    maxDistance: Option<int>,
    sourceUrl: Option<string>,
    status: Option<string>,
    duplicateOf: Option<string>,
    createdAt: int,
    updatedAt: int
  )

  // ------------------------------------------------------------ truthiness

  /** A string field is truthy when present and not empty. */
  predicate Truthy(o: Option<string>) {
    o.Some? && o.value != ""
  }

  /** A number field is truthy when present and not zero. */
  predicate NumTruthy(o: Option<int>) {
    o.Some? && o.value != 0
  }

  /** `o || d` on a string field. */
  function OrText(o: Option<string>, d: string): (r: string)
    ensures Truthy(o) ==> r == o.value
    ensures !Truthy(o) ==> r == d
  {
    if Truthy(o) then o.value else d
  }

  /** `o || []` on a list field (an array is always truthy). */
  function OrEmpty(o: Option<seq<string>>): seq<string> {
    if o.Some? then o.value else []
  }

  /** How a missing string prints inside a template literal. */
  function Text(o: Option<string>): string {
    if o.Some? then o.value else "undefined"
  }

  /** `${vendorName}::${title}`, the key the scripts de-duplicate by. */
  function Key(p: PlanRecord): string {
    Text(p.vendorName) + "::" + Text(p.title)
  }

  /** The keys of a list of records, gathered from the front. */
  function Keys(ps: seq<PlanRecord>): set<string> {
    if ps == [] then {} else Keys(ps[..|ps| - 1]) + {Key(ps[|ps| - 1])}
  }

  /** The key of every record of the list is among its keys. */
  lemma {:induction false} Keys_Has(ps: seq<PlanRecord>, i: nat)
    requires i < |ps|
    ensures Key(ps[i]) in Keys(ps)
  {
    if i < |ps| - 1 {
      var init := ps[..|ps| - 1];
      assert init[i] == ps[i];
      Keys_Has(init, i);
    }
  }

  /** Every key of the list is carried by some record of it. */
  lemma {:induction false} Keys_Index(ps: seq<PlanRecord>, k: string) returns (i: nat)
    requires k in Keys(ps)
    ensures i < |ps| && Key(ps[i]) == k
  {
    var init := ps[..|ps| - 1];
    if k in Keys(init) {
      i := Keys_Index(init, k);
      assert init[i] == ps[i];
    } else {
      i := |ps| - 1;
    }
  }

  /** A key no record carries is not among the keys. */
  lemma {:induction false} Keys_Absent(ps: seq<PlanRecord>, k: string)
    requires forall j :: 0 <= j < |ps| ==> Key(ps[j]) != k
    ensures k !in Keys(ps)
  {
    if ps != [] {
      var init := ps[..|ps| - 1];
      forall j | 0 <= j < |init| ensures Key(init[j]) != k {
        assert init[j] == ps[j];
      }
      Keys_Absent(init, k);
    }
  }

  /** `xs.some(t => t.includes(kw))`. */
  predicate AnyContains(xs: seq<string>, kw: string) {
    exists i :: 0 <= i < |xs| && Contains(xs[i], kw)
  }

  /** `xs.includes(x)`. */
  predicate Has(xs: Option<seq<string>>, x: string) {
    xs.Some? && x in xs.value
  }

  // ------------------------------------------------------- rule tables

  /** A keyword table: an ordered list of (category, keywords). */
  type Rules = seq<(string, seq<string>)>

  /** Whether some keyword of one rule is hit. */
  predicate RuleHit(rule: (string, seq<string>), hit: string -> bool) {
    exists j :: 0 <= j < |rule.1| && hit(rule.1[j])
  }

  /** The category of the first rule, in table order, with a keyword that is
      hit; `default` when no keyword is. */
  function FirstMatch(rules: Rules, hit: string -> bool, default: string): (r: string)
    ensures r == default || exists i :: 0 <= i < |rules| && r == rules[i].0
  {
    if rules == [] then default
    else if RuleHit(rules[0], hit) then rules[0].0
    else
      var r := FirstMatch(rules[1..], hit, default);
      assert r != default ==> exists i :: 0 <= i < |rules| && r == rules[i].0 by {
        if r != default {
          var i :| 0 <= i < |rules[1..]| && r == rules[1..][i].0;
          assert r == rules[i + 1].0;
        }
      }
      r
  }

  /** With no rule hit the default comes back. */
  lemma {:induction false} FirstMatch_None(rules: Rules, hit: string -> bool, default: string)
    requires forall i :: 0 <= i < |rules| ==> !RuleHit(rules[i], hit)
    ensures FirstMatch(rules, hit, default) == default
  {
    if rules != [] {
      forall i | 0 <= i < |rules| - 1
        ensures !RuleHit(rules[1..][i], hit)
      {
        assert rules[1..][i] == rules[i + 1];
      }
      FirstMatch_None(rules[1..], hit, default);
    }
  }

  /** When rule `i` is the first rule hit, its category comes back. */
  lemma {:induction false} FirstMatch_First(rules: Rules, hit: string -> bool, default: string, i: nat)
    requires i < |rules| && RuleHit(rules[i], hit)
    requires forall k :: 0 <= k < i ==> !RuleHit(rules[k], hit)
    ensures FirstMatch(rules, hit, default) == rules[i].0
  {
    if i > 0 {
      assert !RuleHit(rules[0], hit);
      forall k | 0 <= k < i - 1
        ensures !RuleHit(rules[1..][k], hit)
      {
        assert rules[1..][k] == rules[k + 1];
      }
      assert rules[1..][i - 1] == rules[i];
      FirstMatch_First(rules[1..], hit, default, i - 1);
    }
  }

  // ------------------------------------------------------- shared classifiers

  /** `detectVendorType(vendorName, tags)` over a script's keyword table: a
      keyword is hit when it occurs in the vendor name or in any tag. */
  function DetectVendorType(rules: Rules, vendorName: string, tags: seq<string>): string {
    FirstMatch(rules, kw => Contains(vendorName, kw) || AnyContains(tags, kw), "other")
  }

  const CuisineRules: Rules := [
    ("taiwanese", ["台式", "台菜", "辦桌", "古早味", "府城", "台南", "台灣"]),
    ("cantonese", ["粵式", "粵菜", "港式", "廣東", "燒臘", "點心", "飲茶"]),
    ("shanghainese", ["上海", "江浙", "滬式", "蘇杭"]),
    ("szechuan", ["川菜", "川味", "湘菜", "湘味", "麻辣", "四川"]),
    ("japanese", ["日式", "和風", "御節", "日本"]),
    ("vegetarian", ["素食", "蔬食", "素", "齋", "全素", "蛋奶素"]),
    ("fusion", ["創意", "混合", "西式中餐", "無國界"]),
    ("western", ["西式", "法式", "義式", "歐式"])
  ]

  /** `detectCuisineStyle(tags, vendorName, title)`: the first style one of
      whose keywords occurs in the tags, vendor name and title joined by
      spaces; 'taiwanese' otherwise. */
  function DetectCuisineStyle(tags: seq<string>, vendorName: string, title: string): string {
    var allText := Join(tags + [vendorName, title], " ");
    FirstMatch(CuisineRules, kw => Contains(allText, kw), "taiwanese")
  }

  /** The detected style is always one of the table's styles. */
  lemma DetectCuisineStyle_Known(tags: seq<string>, vendorName: string, title: string)
    ensures DetectCuisineStyle(tags, vendorName, title) in
      {"taiwanese", "cantonese", "shanghainese", "szechuan", "japanese", "vegetarian", "fusion", "western"}
  {
    var r := DetectCuisineStyle(tags, vendorName, title);
    if r != "taiwanese" {
      var i :| 0 <= i < |CuisineRules| && r == CuisineRules[i].0;
    }
  }

  /** `detectProductType(title, dishes)` as add-plans.js and
      cleanup-data.js write it. */
  function DetectProductType(title: string, dishes: seq<string>): (r: string)
    ensures |dishes| >= 3 ==> r == "set_meal"
    ensures r in {"set_meal", "dessert", "gift_box", "soup", "single_dish"}
  {
    if |dishes| >= 3 || Contains(title, "套餐") || Contains(title, "組合") || Contains(title, "桌菜") then "set_meal"
    else if Contains(title, "甜點") || Contains(title, "年糕") || Contains(title, "蘿蔔糕") then "dessert"
    else if Contains(title, "禮盒") || Contains(title, "伴手禮") then "gift_box"
    else if Contains(title, "湯") || Contains(title, "羹") || Contains(title, "煲") then "soup"
    else if |dishes| <= 2 then "single_dish" else "set_meal"
  }

  /** `calculatePriceLevel(price)`. */
  function CalculatePriceLevel(price: int): (r: string)
    ensures r in {"budget", "mid_range", "premium", "luxury"}
  {
    if price < 2000 then "budget"
    else if price < 5000 then "mid_range"
    else if price < 10000 then "premium"
    else "luxury"
  }

  /** The script's thresholds agree with the price-level table of the app. */
  lemma CalculatePriceLevel_MatchesTable(price: int)
    requires price >= 0
    ensures CalculatePriceLevel(price) == Types.PriceLevelName(Types.PriceLevelOf(price))
    ensures exists l :: Types.InPriceLevel(price, l) && CalculatePriceLevel(price) == Types.PriceLevelName(l)
  {
    assert Types.InPriceLevel(price, Types.PriceLevelOf(price));
  }

  /** The rank of a level name, for monotonicity. */
  function LevelRank(s: string): int {
    if s == "budget" then 0 else if s == "mid_range" then 1 else if s == "premium" then 2 else 3
  }

  /** A dearer plan never gets a cheaper level. */
  lemma CalculatePriceLevel_Monotone(a: int, b: int)
    requires a <= b
    ensures LevelRank(CalculatePriceLevel(a)) <= LevelRank(CalculatePriceLevel(b))
  {}

  /** `calculateFamilySize(servingsMin, servingsMax)` on
      `servingsMax || servingsMin`; a missing count compares false
      everywhere and gives 'large'. A JSON `null`, which JavaScript
      compares as 0 (giving 'couple'), is not told apart from a missing
      field here. */
  function CalculateFamilySize(servingsMin: Option<int>, servingsMax: Option<int>): (r: string)
    ensures r in {"couple", "small", "medium", "large"}
  {
    var m := if NumTruthy(servingsMax) then servingsMax else servingsMin;
    if m.None? then "large"
    else if m.value <= 2 then "couple"
    else if m.value <= 4 then "small"
    else if m.value <= 6 then "medium"
    else "large"
  }

  /** For a head count in 1..20 the script picks the app's family size
      whose range holds it. */
  lemma CalculateFamilySize_MatchesTable(servingsMin: Option<int>, n: int)
    requires 1 <= n <= 20
    ensures exists f :: (Types.FamilySizeMin(f) <= n <= Types.FamilySizeMax(f)
      && CalculateFamilySize(servingsMin, Some(n)) == Types.FamilySizeName(f))
  {
    var f := if n <= 2 then Types.Couple else if n <= 4 then Types.Small else if n <= 6 then Types.Medium else Types.Large;
    assert Types.FamilySizeMin(f) <= n <= Types.FamilySizeMax(f);
  }

  // ------------------------------------------------------- similarity

  /** `title.toLowerCase().replace(/\s+/g, '')`. */
  function NormTitle(t: string): string {
    Filter(c => !IsSpace(c), Lower(t))
  }

  /** `new Set(p.dishes || [])`. */
  function DishSet(p: PlanRecord): set<string> {
    set d | d in OrEmpty(p.dishes)
  }

  /** `p.dishes?.length || 0`. */
  function DishCount(p: PlanRecord): nat {
    |OrEmpty(p.dishes)|
  }

  lemma {:induction false} SubsetCard<T>(a: set<T>, b: set<T>)
    requires a <= b
    ensures |a| <= |b|
    decreases a
  {
    if a != {} {
      var x :| x in a;
      SubsetCard(a - {x}, b - {x});
    }
  }

  /** The Jaccard index of two dish sets, not both empty. */
  function Jaccard(a: set<string>, b: set<string>): (r: real)
    requires a + b != {}
    ensures 0.0 <= r <= 1.0
    ensures a == b ==> r == 1.0
    ensures a * b == {} ==> r == 0.0
  {
    SubsetCard(a * b, a + b);
    assert a == b ==> a * b == a + b;
    (|a * b| as real) / (|a + b| as real)
  }

  // ------------------------------------------------------- validity

  /** The validity test of cleanup-data.js: a vendor name and a title that
      are present, non-empty and not '未知', and a positive price. */
  predicate Valid(p: PlanRecord) {
    Truthy(p.vendorName) && p.vendorName.value != "未知"
    && Truthy(p.title) && p.title.value != "未知"
    && p.priceDiscount.Some? && p.priceDiscount.value > 0
  }

  /** The stricter validity test of add-plans.js: valid as above, and
      neither the vendor name nor the title is blank once trimmed. */
  predicate ValidIncoming(p: PlanRecord) {
    Valid(p) && Trim(p.vendorName.value) != "" && Trim(p.title.value) != ""
  }
}

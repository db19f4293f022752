/** scripts/normalize-data.js: drops later plans that repeat a
    vendorName::title key, then classifies every remaining plan and
    normalises its tags. The clock is `now`; the statistics it prints are
    not modelled. */
module NormalizeData {
  import opened Common
  import opened PlanRecords

  /** This script's vendor table: the add-plans table without 凱悅 and Hyatt. */
  const VendorRules: Rules := [
    ("hotel", ["飯店", "酒店", "Hotel", "hotel", "晶華", "寒舍", "喜來登", "萬豪", "希爾頓", "香格里拉", "遠東", "文華東方", "君悅", "W飯店", "老爺", "福華", "凱達", "翰品", "日航", "福容", "美福", "維多麗亞", "凱撒", "華泰", "耐斯王子", "誠品行旅", "晶英", "萬怡", "長榮", "圓山", "國賓"]),
    ("restaurant", ["餐廳", "餐館", "料理", "菜", "樓", "園", "軒", "坊", "閣", "居", "苑", "欣葉", "青葉", "金蓬萊", "彭園", "點水樓", "鼎泰豐", "海霸王", "糖朝", "紅豆食府", "度小月", "周氏蝦捲", "林聰明", "阿基師", "山海樓", "逸湘齋"]),
    ("brand", ["老協珍", "王品", "大成", "卜蜂", "義美", "台酒", "郭元益", "金格", "裕珍馨", "正官庄", "福記", "呷七碗", "漁季", "富霸王", "廚鮮食代", "芳葉", "阿舍"]),
    ("convenience", ["7-ELEVEN", "7-11", "全家", "萊爾富", "OK超商", "Hi-Life"]),
    ("hypermarket", ["全聯", "家樂福", "Costco", "好市多", "大潤發", "愛買", "PX Mart", "pxmart"]),
    ("vegetarian", ["素食", "蔬食", "素", "齋", "養心", "祥和", "禪廚", "遇上素", "蔡老師蔬食"])
  ]

  const SetMealKeywords: seq<string> := ["套餐", "組合", "桌菜", "圍爐", "團圓", "年菜組", "件組", "道菜"]
  const DessertKeywords: seq<string> := ["甜點", "年糕", "發糕", "蘿蔔糕", "芋頭糕", "紅豆", "芋泥", "冰", "糕"]
  const GiftBoxKeywords: seq<string> := ["禮盒", "伴手禮", "年節禮盒"]
  const SoupKeywords: seq<string> := ["湯", "羹", "煲", "鍋"]

  /** Some keyword of the list occurs in the title. */
  predicate InTitle(keywords: seq<string>, title: string) {
    exists k :: 0 <= k < |keywords| && Contains(title, keywords[k])
  }

  /** Some keyword of the list occurs in the title or in a tag. */
  predicate InTitleOrTags(keywords: seq<string>, title: string, tags: seq<string>) {
    exists k :: 0 <= k < |keywords| && (Contains(title, keywords[k]) || AnyContains(tags, keywords[k]))
  }

  /** `detectProductType(title, dishes, tags)`: set meals first (a set-meal
      keyword in the title, or three dishes or more), then desserts and gift
      boxes by title or tag, soups by title when there are at most two
      dishes, then single dishes. */
  function DetectProductType(title: string, dishes: seq<string>, tags: seq<string>): (r: string)
    ensures |dishes| >= 3 ==> r == "set_meal"
    ensures r in {"set_meal", "dessert", "gift_box", "soup", "single_dish"}
    ensures r == "soup" || r == "single_dish" ==> |dishes| <= 2
    ensures r == "set_meal" <==> |dishes| >= 3 || InTitle(SetMealKeywords, title)
  {
    if |dishes| >= 3 || InTitle(SetMealKeywords, title) then "set_meal"
    else if InTitleOrTags(DessertKeywords, title, tags) then "dessert"
    else if InTitleOrTags(GiftBoxKeywords, title, tags) then "gift_box"
    else if InTitle(SoupKeywords, title) then "soup"
    else "single_dish"
  }

  /** `calculatePriceLevel(plan.priceDiscount)`: a missing price compares
      false everywhere and gives 'luxury'. A JSON `null`, which JavaScript
      compares as 0 (giving 'budget'), is not told apart from a missing
      field here. */
  function PriceLevelOfField(price: Option<int>): (r: string)
    ensures price.Some? ==> r == CalculatePriceLevel(price.value)
  {
    if price.Some? then CalculatePriceLevel(price.value) else "luxury"
  }

  // ------------------------------------------------------------ tags

  const TagNormalization: map<string, string> := map[
    "港式" := "粵式", "廣東" := "粵式", "台菜" := "台式", "台灣菜" := "台式", "川味" := "川菜",
    "湘味" := "湘菜", "蔬食" := "素食", "冷凍" := "冷凍年菜", "宅配到府" := "宅配"]

  /** `TAG_NORMALIZATION[tag] || tag`. */
  function NormalizeTag(t: string): string {
    if t in TagNormalization then TagNormalization[t] else t
  }

  /** No normalised value is itself a key of the table, so normalising a
      tag twice is normalising it once. */
  lemma NormalizeTag_Idempotent(t: string)
    ensures NormalizeTag(NormalizeTag(t)) == NormalizeTag(t)
  {
    assert forall k :: k in TagNormalization ==> TagNormalization[k] !in TagNormalization;
  }

  /** `normalizeTags(tags)`: the normalised tags with repeats dropped, in
      order of first appearance. */
  function NormalizedTags(tags: seq<string>): (r: seq<string>)
    ensures NoDup(r)
    ensures forall t :: t in r <==> exists x :: x in tags && t == NormalizeTag(x)
  {
    var m := MapSeq(NormalizeTag, tags);
    assert forall t :: t in m <==> exists x :: x in tags && t == NormalizeTag(x) by {
      forall t | t in m ensures exists x :: x in tags && t == NormalizeTag(x) {
        var i :| 0 <= i < |m| && m[i] == t;
        assert tags[i] in tags;
      }
      forall t | exists x :: x in tags && t == NormalizeTag(x) ensures t in m {
        var x :| x in tags && t == NormalizeTag(x);
        var i :| 0 <= i < |tags| && tags[i] == x;
        assert m[i] == t;
      }
    }
    Dedup(m)
  }

  /** Normalising normalised tags changes nothing. */
  lemma NormalizedTags_Idempotent(tags: seq<string>)
    ensures NormalizedTags(NormalizedTags(tags)) == NormalizedTags(tags)
  {
    var d := NormalizedTags(tags);
    var m := MapSeq(NormalizeTag, d);
    forall i | 0 <= i < |d|
      ensures m[i] == d[i]
    {
      assert d[i] in d;
      var x :| x in tags && d[i] == NormalizeTag(x);
      NormalizeTag_Idempotent(x);
    }
    assert m == d;
    Dedup_NoDup(d);
  }

  /** The set-building loop of `normalizeTags`. */
  method NormalizeTags(tags: seq<string>) returns (r: seq<string>)
    ensures r == NormalizedTags(tags)
  {
    var normalized: set<string> := {};
    r := [];
    for i := 0 to |tags|
      invariant r == Dedup(MapSeq(NormalizeTag, tags[..i]))
      invariant forall x :: x in normalized <==> x in r
    {
      var t := NormalizeTag(tags[i]);
      MapSeq_Snoc(NormalizeTag, tags, i);
      Dedup_Snoc(MapSeq(NormalizeTag, tags[..i]), t);
      if t !in normalized {
        r := r + [t];
        normalized := normalized + {t};
      }
    }
    assert tags[..|tags|] == tags;
  }

  // ------------------------------------------------------------ keys

  /** The `seen` map after a run over `ps`: each key to the first plan
      carrying it. */
  function Seen(ps: seq<PlanRecord>): (m: map<string, PlanRecord>)
    ensures m.Keys == Keys(ps)
  {
    if ps == [] then map[]
    else
      var last := ps[|ps| - 1];
      var m := Seen(ps[..|ps| - 1]);
      if Key(last) in m then m else m[Key(last) := last]
  }

  /** `Seen` maps each key to the first plan of the run carrying it. */
  lemma {:induction false} Seen_First(ps: seq<PlanRecord>, i: nat)
    requires i < |ps| && forall j :: 0 <= j < i ==> Key(ps[j]) != Key(ps[i])
    ensures Key(ps[i]) in Seen(ps) && Seen(ps)[Key(ps[i])] == ps[i]
  {
    var init := ps[..|ps| - 1];
    if i < |ps| - 1 {
      assert init[i] == ps[i];
      Seen_First(init, i);
    } else {
      forall j | 0 <= j < |init| ensures Key(init[j]) != Key(ps[i]) {
        assert init[j] == ps[j];
      }
      Keys_Absent(init, Key(ps[i]));
    }
  }

  /** The first position of a key that occurs. */
  lemma FirstOccurrence(ps: seq<PlanRecord>, key: string) returns (i: nat)
    requires key in Keys(ps)
    ensures i < |ps| && Key(ps[i]) == key && forall j :: 0 <= j < i ==> Key(ps[j]) != key
  {
    var n := Keys_Index(ps, key);
    i := 0;
    while Key(ps[i]) != key
      invariant i <= n && forall j :: 0 <= j < i ==> Key(ps[j]) != key
      decreases n - i
    {
      i := i + 1;
    }
  }

  /** The unique filter: the first plan of every key, in order. */
  function UniqueByKey(ps: seq<PlanRecord>): (r: seq<PlanRecord>)
    ensures |r| <= |ps|
  {
    if ps == [] then []
    else
      var init := ps[..|ps| - 1];
      var last := ps[|ps| - 1];
      if Key(last) in Keys(init) then UniqueByKey(init) else UniqueByKey(init) + [last]
  }

  /** `findDuplicates(plans)`: each later occurrence of a key paired with
      the plan `seen` holds for it. */
  function Duplicates(ps: seq<PlanRecord>): (r: seq<(PlanRecord, PlanRecord)>)
  {
    if ps == [] then []
    else
      var init := ps[..|ps| - 1];
      var last := ps[|ps| - 1];
      var m := Seen(init);
      if Key(last) in m then Duplicates(init) + [(m[Key(last)], last)] else Duplicates(init)
  }

  /** The kept plans carry every key of the input. */
  lemma {:induction false} UniqueByKey_Keys(ps: seq<PlanRecord>)
    ensures Keys(UniqueByKey(ps)) == Keys(ps)
  {
    if ps != [] {
      var init := ps[..|ps| - 1];
      var last := ps[|ps| - 1];
      UniqueByKey_Keys(init);
      var u := UniqueByKey(init);
      assert (u + [last])[..|u|] == u;
    }
  }

  /** The kept plans carry every key only once. */
  predicate KeysDistinct(ps: seq<PlanRecord>) {
    forall i, j :: 0 <= i < j < |ps| ==> Key(ps[i]) != Key(ps[j])
  }

  lemma {:induction false} UniqueByKey_Distinct(ps: seq<PlanRecord>)
    ensures KeysDistinct(UniqueByKey(ps))
  {
    if ps != [] {
      var init := ps[..|ps| - 1];
      var last := ps[|ps| - 1];
      UniqueByKey_Distinct(init);
      var u := UniqueByKey(init);
      if Key(last) !in Keys(init) {
        UniqueByKey_Keys(init);
        forall i | 0 <= i < |u| ensures Key(u[i]) != Key(last) {
          Keys_Has(u, i);
        }
        var u' := u + [last];
        forall i, j | 0 <= i < j < |u'| ensures Key(u'[i]) != Key(u'[j]) {
          if j < |u| {
            assert u'[i] == u[i] && u'[j] == u[j];
          }
        }
      }
    }
  }

  /** Every dropped plan is reported as a duplicate: kept plus reported is
      the input length. */
  lemma {:induction false} UniqueByKey_Count(ps: seq<PlanRecord>)
    ensures |UniqueByKey(ps)| + |Duplicates(ps)| == |ps|
  {
    if ps != [] {
      UniqueByKey_Count(ps[..|ps| - 1]);
    }
  }

  /** Plan `i` is the first of the run with its key. */
  predicate FirstOfKey(ps: seq<PlanRecord>, i: nat) {
    i < |ps| && forall j :: 0 <= j < i ==> Key(ps[j]) != Key(ps[i])
  }

  /** Being first with a key survives appending a plan. */
  lemma FirstOfKey_Extend(ps: seq<PlanRecord>, i: nat)
    requires ps != [] && FirstOfKey(ps[..|ps| - 1], i)
    ensures FirstOfKey(ps, i) && ps[i] == ps[..|ps| - 1][i]
  {
    var init := ps[..|ps| - 1];
    forall j | 0 <= j < i ensures Key(ps[j]) != Key(ps[i]) {
      assert ps[j] == init[j] && ps[i] == init[i];
    }
  }

  /** Each reported pair shares its key, and its first plan is the first
      plan of the input with that key. */
  lemma {:induction false} Duplicates_Pairs(ps: seq<PlanRecord>, d: nat)
    requires d < |Duplicates(ps)|
    ensures Key(Duplicates(ps)[d].0) == Key(Duplicates(ps)[d].1)
    ensures exists i :: 0 <= i && FirstOfKey(ps, i) && ps[i] == Duplicates(ps)[d].0
  {
    var init := ps[..|ps| - 1];
    var last := ps[|ps| - 1];
    if d < |Duplicates(init)| {
      assert Duplicates(ps)[d] == Duplicates(init)[d];
      Duplicates_Pairs(init, d);
      var i :| 0 <= i && FirstOfKey(init, i) && init[i] == Duplicates(init)[d].0;
      FirstOfKey_Extend(ps, i);
    } else {
      assert Duplicates(ps)[d] == (Seen(init)[Key(last)], last);
      var i := FirstOccurrence(init, Key(last));
      Seen_First(init, i);
      FirstOfKey_Extend(ps, i);
    }
  }

  /** The loop of `findDuplicates`. */
  method FindDuplicates(plans: seq<PlanRecord>) returns (duplicates: seq<(PlanRecord, PlanRecord)>)
    ensures duplicates == Duplicates(plans)
  {
    var seen: map<string, PlanRecord> := map[];
    duplicates := [];
    for i := 0 to |plans|
      invariant seen == Seen(plans[..i]) && duplicates == Duplicates(plans[..i])
    {
      assert plans[..i + 1][..i] == plans[..i];
      var key := Key(plans[i]);
      if key in seen {
        duplicates := duplicates + [(seen[key], plans[i])];
      } else {
        seen := seen[key := plans[i]];
      }
    }
    assert plans[..|plans|] == plans;
  }

  /** The `uniquePlans` filter with its set of keys. */
  method UniquePlans(plans: seq<PlanRecord>) returns (unique: seq<PlanRecord>)
    ensures unique == UniqueByKey(plans)
  {
    var uniqueKeys: set<string> := {};
    unique := [];
    for i := 0 to |plans|
      invariant uniqueKeys == Keys(plans[..i]) && unique == UniqueByKey(plans[..i])
    {
      assert plans[..i + 1][..i] == plans[..i];
      var key := Key(plans[i]);
      if key !in uniqueKeys {
        uniqueKeys := uniqueKeys + {key};
        unique := unique + [plans[i]];
      }
    }
    assert plans[..|plans|] == plans;
  }

  // ------------------------------------------------------------ main

  /** The record `main()` writes for a kept plan: normalised tags, the five
      classifications and a fresh update instant. */
  function NormalizedPlan(p: PlanRecord, now: int): (r: PlanRecord)
    ensures r.id == p.id && Key(r) == Key(p)
  {
    var tags := OrEmpty(p.tags);
    var vendor := p.vendorName.GetOr("");
    var title := p.title.GetOr("");
    p.(tags := Some(NormalizedTags(tags)),
       vendorType := Some(DetectVendorType(VendorRules, vendor, tags)),
       productType := Some(DetectProductType(title, OrEmpty(p.dishes), tags)),
       cuisineStyle := Some(DetectCuisineStyle(tags, vendor, title)),
       priceLevel := Some(PriceLevelOfField(p.priceDiscount)),
       familySize := Some(CalculateFamilySize(p.servingsMin, p.servingsMax)),
       updatedAt := now)
  }

  /** The rewritten record keeps its price, carries duplicate-free
      normalised tags, the new instant, and a set-meal type for three dishes
      or more. */
  lemma NormalizedPlan_Fields(p: PlanRecord, now: int)
    ensures NormalizedPlan(p, now).priceDiscount == p.priceDiscount
    ensures NormalizedPlan(p, now).tags == Some(NormalizedTags(OrEmpty(p.tags)))
    ensures NoDup(NormalizedPlan(p, now).tags.value)
    ensures NormalizedPlan(p, now).updatedAt == now
    ensures |OrEmpty(p.dishes)| >= 3 ==> NormalizedPlan(p, now).productType == Some("set_meal")
  {
  }

  /** `uniquePlans.map(...)`. */
  function NormalizedAll(ps: seq<PlanRecord>, now: int): (r: seq<PlanRecord>)
    ensures |r| == |ps| && forall k :: 0 <= k < |ps| ==> Key(r[k]) == Key(ps[k]) && r[k].id == ps[k].id
  {
    seq(|ps|, k requires 0 <= k < |ps| => NormalizedPlan(ps[k], now))
  }

  /** The written plans carry every key of the input exactly once. */
  lemma Normalized_Keys(plans: seq<PlanRecord>, now: int)
    ensures KeysDistinct(NormalizedAll(UniqueByKey(plans), now))
    ensures Keys(NormalizedAll(UniqueByKey(plans), now)) == Keys(plans)
  {
    var u := UniqueByKey(plans);
    var n := NormalizedAll(u, now);
    UniqueByKey_Distinct(plans);
    UniqueByKey_Keys(plans);
    forall i, j | 0 <= i < j < |n| ensures Key(n[i]) != Key(n[j]) {
      assert Key(n[i]) == Key(u[i]) && Key(n[j]) == Key(u[j]);
    }
    SameKeys(n, u);
  }

  /** Two runs whose plans carry the same keys position by position have
      the same keys. */
  lemma {:induction false} SameKeys(a: seq<PlanRecord>, b: seq<PlanRecord>)
    requires |a| == |b| && forall k :: 0 <= k < |a| ==> Key(a[k]) == Key(b[k])
    ensures Keys(a) == Keys(b)
  {
    if a != [] {
      var a', b' := a[..|a| - 1], b[..|b| - 1];
      forall k | 0 <= k < |a'| ensures Key(a'[k]) == Key(b'[k]) {
        assert a'[k] == a[k] && b'[k] == b[k];
      }
      SameKeys(a', b');
      assert Keys(a) == Keys(a') + {Key(a[|a| - 1])};
      assert Keys(b) == Keys(b') + {Key(b[|b| - 1])};
    }
  }

  /** What main() writes and reports. */
  datatype Outcome = Outcome(plans: seq<PlanRecord>, duplicates: seq<(PlanRecord, PlanRecord)>, removed: nat)

  /** `main()` over the plan file. */
  method Normalize(plans: seq<PlanRecord>, now: int) returns (out: Outcome)
    ensures out.duplicates == Duplicates(plans)
    ensures out.plans == NormalizedAll(UniqueByKey(plans), now)
    ensures out.removed == |plans| - |out.plans| == |out.duplicates|
  {
    var duplicates := FindDuplicates(plans);
    var unique := UniquePlans(plans);
    UniqueByKey_Count(plans);
    var normalized := seq(|unique|, k requires 0 <= k < |unique| => NormalizedPlan(unique[k], now));
    out := Outcome(normalized, duplicates, |plans| - |normalized|);
  }
}

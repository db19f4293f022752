/** scripts/add-plans.js: validates incoming records, skips those whose
    vendor::title key is taken, resolves same-vendor same-price duplicates by
    dish count and completeness, and appends the rest, classified and
    published. Random ids come from `newId` and the clock is `now`. */
module AddPlans {
  import opened Common
  import opened PlanRecords

  const VendorRules: Rules := [
    ("hotel", ["飯店", "酒店", "Hotel", "hotel", "凱悅", "Hyatt", "晶華", "寒舍", "喜來登", "萬豪", "希爾頓", "香格里拉", "遠東", "文華東方", "君悅", "W飯店", "老爺", "福華", "凱達", "翰品", "日航", "福容", "美福", "維多麗亞", "凱撒", "華泰", "耐斯王子", "誠品行旅", "晶英", "萬怡", "長榮", "圓山", "國賓"]),
    ("restaurant", ["餐廳", "餐館", "料理", "菜", "樓", "園", "軒", "坊", "閣", "居", "苑", "欣葉", "青葉", "金蓬萊", "彭園", "點水樓", "鼎泰豐", "海霸王", "糖朝", "紅豆食府", "度小月", "周氏蝦捲", "林聰明", "阿基師", "山海樓", "逸湘齋"]),
    ("brand", ["老協珍", "王品", "大成", "卜蜂", "義美", "台酒", "郭元益", "金格", "裕珍馨", "正官庄", "福記", "呷七碗", "漁季", "富霸王", "廚鮮食代", "芳葉", "阿舍"]),
    ("convenience", ["7-ELEVEN", "7-11", "全家", "萊爾富", "OK超商", "Hi-Life"]),
    ("hypermarket", ["全聯", "家樂福", "Costco", "好市多", "大潤發", "愛買", "PX Mart", "pxmart"]),
    ("vegetarian", ["素食", "蔬食", "素", "齋", "養心", "祥和", "禪廚", "遇上素", "蔡老師蔬食"])
  ]

  /** `calculateSimilarity(a, b)`: with no dishes on either side, 1 for
      equal normalised titles, 0.8 when one contains the other and 0.3
      otherwise; else the Jaccard index of the dish sets. */
  function Similarity(a: PlanRecord, b: PlanRecord): (r: real)
    ensures 0.0 <= r <= 1.0
    ensures DishSet(a) == {} && DishSet(b) == {} && NormTitle(a.title.GetOr("")) == NormTitle(b.title.GetOr("")) ==> r == 1.0
    ensures DishSet(a) + DishSet(b) != {} ==> r == Jaccard(DishSet(a), DishSet(b))
  {
    var da := DishSet(a);
    var db := DishSet(b);
    if da == {} && db == {} then
      var ta := NormTitle(a.title.GetOr(""));
      var tb := NormTitle(b.title.GetOr(""));
      if ta == tb then 1.0
      else if Contains(ta, tb) || Contains(tb, ta) then 0.8
      else 0.3
    else Jaccard(da, db)
  }

  /** Similarity does not depend on the order of the two plans. */
  lemma Similarity_Symmetric(a: PlanRecord, b: PlanRecord)
    ensures Similarity(a, b) == Similarity(b, a)
  {
    assert DishSet(a) * DishSet(b) == DishSet(b) * DishSet(a);
    assert DishSet(a) + DishSet(b) == DishSet(b) + DishSet(a);
  }

  /** `calculateCompleteness(plan)`: points for an image (2), a description,
      each dish, half a point per tag, an original price and a deadline. */
  function Completeness(p: PlanRecord): (r: real)
    ensures r >= DishCount(p) as real
  {
    (if Truthy(p.imageUrl) then 2.0 else 0.0)
    + (if Truthy(p.description) then 1.0 else 0.0)
    + DishCount(p) as real
    + (|OrEmpty(p.tags)| as real) * 0.5
    + (if NumTruthy(p.priceOriginal) then 1.0 else 0.0)
    + (if Truthy(p.orderDeadline) then 1.0 else 0.0)
  }

  /** An existing plan the incoming one is compared with: same vendor, same
      price, not already a duplicate. */
  predicate Candidate(n: PlanRecord, p: PlanRecord) {
    p.vendorName == n.vendorName && p.priceDiscount == n.priceDiscount && p.status != Some("duplicate")
  }

  predicate Similar(n: PlanRecord, p: PlanRecord) {
    Candidate(n, p) && Similarity(n, p) >= 0.5
  }

  /** The first index from `from` on holding a similar candidate. */
  function FirstSimilar(n: PlanRecord, db: seq<PlanRecord>, from: nat): (r: Option<nat>)
    requires from <= |db|
    ensures r.Some? ==> from <= r.value < |db| && Similar(n, db[r.value])
    ensures r.Some? ==> forall k :: from <= k < r.value ==> !Similar(n, db[k])
    ensures r.None? ==> forall k :: from <= k < |db| ==> !Similar(n, db[k])
    decreases |db| - from
  {
    if from == |db| then None
    else if Similar(n, db[from]) then Some(from)
    else FirstSimilar(n, db, from + 1)
  }

  /** What `checkDuplicateAndDecide` answers; the index names the existing
      plan it matched. The reason text is not modelled. */
  datatype Decision = Add | Replace(index: nat) | Skip(index: nat)

  /** `checkDuplicateAndDecide(newPlan, existingPlans)`: the first similar
      candidate decides; more dishes replace it, fewer skip, and on a tie
      only strictly greater completeness replaces. */
  function CheckDuplicateAndDecide(n: PlanRecord, db: seq<PlanRecord>): (d: Decision)
    ensures d.Add? <==> forall k :: 0 <= k < |db| ==> !Similar(n, db[k])
    ensures !d.Add? ==> d.index < |db| && Similar(n, db[d.index]) && forall k :: 0 <= k < d.index ==> !Similar(n, db[k])
    ensures d.Replace? ==> (DishCount(n) > DishCount(db[d.index])
      || (DishCount(n) == DishCount(db[d.index]) && Completeness(n) > Completeness(db[d.index])))
    ensures d.Skip? ==> (DishCount(n) < DishCount(db[d.index])
      || (DishCount(n) == DishCount(db[d.index]) && Completeness(n) <= Completeness(db[d.index])))
  {
    var first := FirstSimilar(n, db, 0);
    if first.None? then Add
    else
      var e := db[first.value];
      if DishCount(n) > DishCount(e) then Replace(first.value)
      else if DishCount(n) < DishCount(e) then Skip(first.value)
      else if Completeness(n) > Completeness(e) then Replace(first.value)
      else Skip(first.value)
  }

  /** How add-plans.js marks a replaced plan. */
  function MarkDuplicate(p: PlanRecord, now: int): PlanRecord {
    p.(status := Some("duplicate"), updatedAt := now)
  }

  /** `shippingType` from the `shippingTypes` list: 'both' when it holds
      delivery and pickup, 'pickup' when pickup comes first, else 'delivery'. */
  function ShippingTypeOf(types: Option<seq<string>>): (r: string)
    ensures r in {"both", "pickup", "delivery"}
    ensures r == "both" <==> Has(types, "delivery") && Has(types, "pickup")
  {
    if Has(types, "delivery") && Has(types, "pickup") then "both"
    else if types.Some? && |types.value| > 0 && types.value[0] == "pickup" then "pickup"
    else "delivery"
  }

  /** The classification fields of a new plan, in the order vendorType,
      productType, cuisineStyle, priceLevel, familySize. */
  function Classify(p: PlanRecord): seq<string> {
    var tags := OrEmpty(p.tags);
    var vendor := p.vendorName.GetOr("");
    var title := p.title.GetOr("");
    [DetectVendorType(VendorRules, vendor, tags), DetectProductType(title, OrEmpty(p.dishes)),
     DetectCuisineStyle(tags, vendor, title), CalculatePriceLevel(p.priceDiscount.GetOr(0)),
     CalculateFamilySize(p.servingsMin, p.servingsMax)]
  }

  /** `x || undefined` on a string field and on a number field. */
  function Falsy(o: Option<string>): Option<string> { if Truthy(o) then o else None }
  function FalsyNum(o: Option<int>): Option<int> { if NumTruthy(o) then o else None }

  /** The first storage type when it is truthy, else 'frozen'. */
  function FirstStorage(types: Option<seq<string>>): string {
    if types.Some? && |types.value| > 0 && types.value[0] != "" then types.value[0] else "frozen"
  }

  /** The full plan add-plans.js builds from a valid incoming record (the
      vendor id it also draws is not part of the record). */
  function FullPlan(p: PlanRecord, id: string, now: int): (r: PlanRecord)
    ensures r.vendorName == p.vendorName && r.title == p.title && r.priceDiscount == p.priceDiscount
    ensures r.status == Some("published")
    ensures r.shippingType == Some(ShippingTypeOf(p.shippingTypes))
    ensures r.shippingTypes == if p.shippingTypes.Some? then p.shippingTypes else Some(["delivery"])
    ensures r.storageTypes == if p.storageTypes.Some? then p.storageTypes else Some(["frozen"])
  {
    var c := Classify(p);
    PlanRecord(id, p.vendorName, p.title, Falsy(p.description), Falsy(p.imageUrl), FalsyNum(p.priceOriginal),
      p.priceDiscount, FalsyNum(p.shippingFee), Some(ShippingTypeOf(p.shippingTypes)),
      if p.shippingTypes.Some? then p.shippingTypes else Some(["delivery"]),
      Some(FirstStorage(p.storageTypes)),
      if p.storageTypes.Some? then p.storageTypes else Some(["frozen"]),
      None, Falsy(p.region), Falsy(p.city), p.servingsMin, FalsyNum(p.servingsMax),
      Falsy(p.orderDeadline), Falsy(p.fulfillStart), Some(OrEmpty(p.tags)), Some(OrEmpty(p.dishes)),
      Some(c[0]), Some(c[1]), Some(c[2]), Some(c[3]), Some(c[4]), None, p.sourceUrl, Some("published"), None,
      now, now)
  }

  /** A record the validity test turns away. */
  predicate Rejected(p: PlanRecord) {
    !ValidIncoming(p)
  }

  /** One more record raises the count of rejected ones by one exactly
      when it is rejected. */
  lemma Rejected_Step(incoming: seq<PlanRecord>, i: nat)
    requires i < |incoming|
    ensures Count(Rejected, incoming[..i + 1]) == Count(Rejected, incoming[..i]) + (if ValidIncoming(incoming[i]) then 0 else 1)
  {
    assert incoming[..i + 1] == incoming[..i] + [incoming[i]];
    Count_Append(Rejected, incoming[..i], [incoming[i]]);
  }

  /** The plan file after the run, and the counters it prints. */
  datatype Outcome = Outcome(all: seq<PlanRecord>, added: seq<PlanRecord>, replaced: nat, skipped: nat, invalid: nat)

  /** An existing plan after the run: untouched, or marked duplicate. */
  predicate KeptOrMarked(before: PlanRecord, after: PlanRecord, now: int) {
    after == before || after == MarkDuplicate(before, now)
  }

  /** The keys of the added plans are pairwise distinct. */
  predicate DistinctKeys(added: seq<PlanRecord>) {
    forall j, k :: 0 <= j < k < |added| ==> Key(added[j]) != Key(added[k])
  }

  /** The existing plans are each untouched or marked. */
  predicate ExistingKept(existing: seq<PlanRecord>, db: seq<PlanRecord>, now: int) {
    |db| == |existing| && forall k :: 0 <= k < |existing| ==> KeptOrMarked(existing[k], db[k], now)
  }

  /** `keys` is every key seen: the existing ones and the added ones. */
  predicate KeysSeen(existing: seq<PlanRecord>, added: seq<PlanRecord>, keys: set<string>) {
    keys == Keys(existing) + Keys(added)
  }

  /** The added plans are valid, published and keyed apart from the
      existing plans. */
  predicate AddedFresh(existing: seq<PlanRecord>, added: seq<PlanRecord>) {
    forall j :: 0 <= j < |added| ==>
      ValidIncoming(added[j]) && added[j].status == Some("published") && Key(added[j]) !in Keys(existing)
  }

  /** What holds between two incoming records. */
  predicate Progress(existing: seq<PlanRecord>, db: seq<PlanRecord>, added: seq<PlanRecord>, keys: set<string>, now: int) {
    ExistingKept(existing, db, now) && KeysSeen(existing, added, keys)
    && AddedFresh(existing, added) && DistinctKeys(added)
  }

  /** Marking a plan that is not yet a duplicate keeps every existing plan
      untouched or marked. */
  lemma Mark_KeepsExisting(existing: seq<PlanRecord>, db: seq<PlanRecord>, i: nat, now: int)
    requires ExistingKept(existing, db, now) && i < |db| && db[i].status != Some("duplicate")
    ensures ExistingKept(existing, db[i := MarkDuplicate(db[i], now)], now)
  {
    assert db[i] == existing[i];
  }

  /** Appending a plan records its key among the seen ones. */
  lemma Append_KeysSeen(existing: seq<PlanRecord>, added: seq<PlanRecord>, keys: set<string>, full: PlanRecord)
    requires KeysSeen(existing, added, keys)
    ensures KeysSeen(existing, added + [full], keys + {Key(full)})
  {
    assert (added + [full])[..|added|] == added;
  }

  /** Appending a valid published plan under an unseen key keeps the added
      plans fresh. */
  lemma Append_KeepsFresh(existing: seq<PlanRecord>, added: seq<PlanRecord>, keys: set<string>, full: PlanRecord)
    requires KeysSeen(existing, added, keys) && AddedFresh(existing, added)
    requires ValidIncoming(full) && full.status == Some("published") && Key(full) !in keys
    ensures AddedFresh(existing, added + [full])
  {
    var added' := added + [full];
    forall j | 0 <= j < |added'|
      ensures ValidIncoming(added'[j]) && added'[j].status == Some("published") && Key(added'[j]) !in Keys(existing)
    {
      if j < |added| {
        assert added'[j] == added[j];
      }
    }
  }

  /** Appending a plan under an unseen key keeps the added keys distinct. */
  lemma Append_KeepsDistinct(existing: seq<PlanRecord>, added: seq<PlanRecord>, keys: set<string>, full: PlanRecord)
    requires KeysSeen(existing, added, keys) && DistinctKeys(added) && Key(full) !in keys
    ensures DistinctKeys(added + [full])
  {
    var added' := added + [full];
    forall j, k | 0 <= j < k < |added'|
      ensures Key(added'[j]) != Key(added'[k])
    {
      if k == |added| {
        Keys_Has(added, j);
      }
    }
  }

  /** The plan file with its `i`-th plan marked duplicate. */
  function MarkAt(db: seq<PlanRecord>, i: nat, now: int): (r: seq<PlanRecord>)
    requires i < |db|
    ensures |r| == |db| && r[i] == MarkDuplicate(db[i], now)
    ensures forall k :: 0 <= k < |db| && k != i ==> r[k] == db[k]
  {
    db[i := MarkDuplicate(db[i], now)]
  }

  /** The state of `main()` once the first `n` incoming records are dealt
      with: the plan file, the added plans, the keys seen and the three
      counters. */
  datatype RunState = RunState(db: seq<PlanRecord>, added: seq<PlanRecord>, keys: set<string>,
                               replaced: nat, skipped: nat, invalid: nat)

  /** The turn of one record as a function of the run so far: an invalid
      record is counted, a record under a seen key or one the duplicate
      check skips is counted as skipped, and any other is added, as `full`,
      under its key, after its match is marked duplicate when the check
      replaces it. */
  function Step(r: RunState, plan: PlanRecord, full: PlanRecord, now: int): (s: RunState)
    ensures |s.added| + s.skipped + s.invalid == |r.added| + r.skipped + r.invalid + 1
    ensures r.added <= s.added && s.replaced - r.replaced <= |s.added| - |r.added|
  {
    if !ValidIncoming(plan) then r.(invalid := r.invalid + 1)
    else if Key(plan) in r.keys then r.(skipped := r.skipped + 1)
    else
      var d := CheckDuplicateAndDecide(plan, r.db);
      if d.Skip? then r.(skipped := r.skipped + 1)
      else RunState(if d.Replace? then MarkAt(r.db, d.index, now) else r.db,
                    r.added + [full], r.keys + {Key(plan)},
                    r.replaced + (if d.Replace? then 1 else 0), r.skipped, r.invalid)
  }

  /** The full plan each incoming record would become, under the id drawn
      for it. */
  function Completed(incoming: seq<PlanRecord>, newId: nat -> string, now: int): (c: seq<PlanRecord>)
    ensures |c| == |incoming|
    ensures forall i :: 0 <= i < |incoming| ==> c[i] == FullPlan(incoming[i], newId(i), now)
  {
    seq(|incoming|, i requires 0 <= i < |incoming| => FullPlan(incoming[i], newId(i), now))
  }

  /** The loop of `main()` over the first `n` incoming records, starting
      from the plan file and its keys; `full` holds the full plan of each
      record. */
  function Run(existing: seq<PlanRecord>, incoming: seq<PlanRecord>, full: seq<PlanRecord>, n: nat, now: int): (r: RunState)
    requires n <= |incoming| == |full|
    ensures |r.added| + r.skipped + r.invalid == n
    ensures r.replaced <= |r.added|
  {
    if n == 0 then RunState(existing, [], Keys(existing), 0, 0, 0)
    else Step(Run(existing, incoming, full, n - 1, now), incoming[n - 1], full[n - 1], now)
  }

  /** Later records only append to the added plans. */
  lemma {:induction false} Run_AddedGrows(existing: seq<PlanRecord>, incoming: seq<PlanRecord>, full: seq<PlanRecord>, m: nat, n: nat, now: int)
    requires m <= n <= |incoming| == |full|
    ensures Run(existing, incoming, full, m, now).added <= Run(existing, incoming, full, n, now).added
    decreases n
  {
    if m < n {
      Run_AddedGrows(existing, incoming, full, m, n - 1, now);
    }
  }

  /** A valid record under a key not yet seen that the duplicate check
      does not skip. */
  predicate Unskipped(r: RunState, plan: PlanRecord) {
    ValidIncoming(plan) && Key(plan) !in r.keys && !CheckDuplicateAndDecide(plan, r.db).Skip?
  }

  /** An unskipped record is appended, as its full plan, by its turn of the
      run. */
  lemma Run_AddsAt(existing: seq<PlanRecord>, incoming: seq<PlanRecord>, full: seq<PlanRecord>, i: nat, now: int)
    requires i < |incoming| == |full| && Unskipped(Run(existing, incoming, full, i, now), incoming[i])
    ensures Run(existing, incoming, full, i + 1, now).added == Run(existing, incoming, full, i, now).added + [full[i]]
    ensures full[i] in Run(existing, incoming, full, i + 1, now).added
  {
    var r := Run(existing, incoming, full, i, now);
    assert (r.added + [full[i]])[|r.added|] == full[i];
  }

  /** What a prefix holds, the whole sequence holds. */
  lemma Prefix_Has(a: seq<PlanRecord>, b: seq<PlanRecord>, x: PlanRecord)
    requires a <= b && x in a
    ensures x in b
  {
    var k :| 0 <= k < |a| && a[k] == x;
    assert b[k] == x;
  }

  /** An unskipped record ends up, as its full plan, among the added plans
      of the whole run. */
  lemma Run_AddsUnskipped(existing: seq<PlanRecord>, incoming: seq<PlanRecord>, full: seq<PlanRecord>, i: nat, now: int)
    requires i < |incoming| == |full| && Unskipped(Run(existing, incoming, full, i, now), incoming[i])
    ensures full[i] in Run(existing, incoming, full, |incoming|, now).added
  {
    Run_AddsAt(existing, incoming, full, i, now);
    Run_AddedGrows(existing, incoming, full, i + 1, |incoming|, now);
    var a, b := Run(existing, incoming, full, i + 1, now).added, Run(existing, incoming, full, |incoming|, now).added;
    Prefix_Has(a, b, full[i]);
  }

  /** The invalid counter of the run is the number of rejected records. */
  lemma {:induction false} Run_Invalid(existing: seq<PlanRecord>, incoming: seq<PlanRecord>, full: seq<PlanRecord>, n: nat, now: int)
    requires n <= |incoming| == |full|
    ensures Run(existing, incoming, full, n, now).invalid == Count(Rejected, incoming[..n])
  {
    if n > 0 {
      Run_Invalid(existing, incoming, full, n - 1, now);
      Rejected_Step(incoming, n - 1);
    }
  }

  /** What became of one incoming record. */
  datatype Fate = Invalid | Skipped | Added | ReplacedAndAdded

  /** The body of the loop of `main()` on the script's own variables: the
      plan file, the added plans and the key set. */
  method Consider(existing: seq<PlanRecord>, db: seq<PlanRecord>, added: seq<PlanRecord>, keys: set<string>,
                  plan: PlanRecord, id: string, now: int)
    returns (db': seq<PlanRecord>, added': seq<PlanRecord>, keys': set<string>, fate: Fate)
    requires Progress(existing, db, added, keys, now)
    ensures Progress(existing, db', added', keys', now)
    ensures fate == Invalid <==> !ValidIncoming(plan)
    ensures fate == Skipped <==> ValidIncoming(plan) && (Key(plan) in keys || CheckDuplicateAndDecide(plan, db).Skip?)
    ensures fate == ReplacedAndAdded <==> ValidIncoming(plan) && Key(plan) !in keys && CheckDuplicateAndDecide(plan, db).Replace?
    ensures fate in {Invalid, Skipped} ==> added' == added
    ensures fate in {Added, ReplacedAndAdded} ==> added' == added + [FullPlan(plan, id, now)]
    ensures db' == if fate == ReplacedAndAdded then MarkAt(db, CheckDuplicateAndDecide(plan, db).index, now) else db
    ensures keys' == if fate in {Added, ReplacedAndAdded} then keys + {Key(plan)} else keys
  {
    db', added', keys' := db, added, keys;
    if !ValidIncoming(plan) {
      return db', added', keys', Invalid;
    }
    var key := Key(plan);
    if key in keys {
      return db', added', keys', Skipped;
    }
    var decision := CheckDuplicateAndDecide(plan, db);
    if decision.Skip? {
      return db', added', keys', Skipped;
    }
    fate := Added;
    if decision.Replace? {
      Mark_KeepsExisting(existing, db, decision.index, now);
      db' := MarkAt(db, decision.index, now);
      fate := ReplacedAndAdded;
    }
    var full := FullPlan(plan, id, now);
    assert Key(full) == key && ValidIncoming(full);
    Append_KeysSeen(existing, added, keys, full);
    Append_KeepsDistinct(existing, added, keys, full);
    Append_KeepsFresh(existing, added, keys, full);
    added' := added + [full];
    keys' := keys + {key};
  }

  /** The counters after one more record whose fate is `fate`. */
  function Tally(r: RunState, fate: Fate): RunState {
    match fate
    case Invalid => r.(invalid := r.invalid + 1)
    case Skipped => r.(skipped := r.skipped + 1)
    case Added => r
    case ReplacedAndAdded => r.(replaced := r.replaced + 1)
  }

  /** A turn that does what `Consider` promises is one `Step`. */
  lemma Consider_Steps(r: RunState, plan: PlanRecord, full: PlanRecord, now: int,
                       db': seq<PlanRecord>, added': seq<PlanRecord>, keys': set<string>, fate: Fate)
    requires fate == Invalid <==> !ValidIncoming(plan)
    requires fate == Skipped <==> ValidIncoming(plan) && (Key(plan) in r.keys || CheckDuplicateAndDecide(plan, r.db).Skip?)
    requires fate == ReplacedAndAdded <==> ValidIncoming(plan) && Key(plan) !in r.keys && CheckDuplicateAndDecide(plan, r.db).Replace?
    requires added' == if fate in {Added, ReplacedAndAdded} then r.added + [full] else r.added
    requires db' == if fate == ReplacedAndAdded then MarkAt(r.db, CheckDuplicateAndDecide(plan, r.db).index, now) else r.db
    requires keys' == if fate in {Added, ReplacedAndAdded} then r.keys + {Key(plan)} else r.keys
    ensures Step(r, plan, full, now) == Tally(r.(db := db', added := added', keys := keys'), fate)
  {
  }

  /** One turn of the loop of `main()` on the run so far: `Consider`
      does what `Step` says. */
  method Turn(existing: seq<PlanRecord>, incoming: seq<PlanRecord>, ghost full: seq<PlanRecord>, i: nat,
              st: RunState, id: string, now: int)
    returns (st': RunState)
    requires i < |incoming| == |full| && full[i] == FullPlan(incoming[i], id, now)
    requires st == Run(existing, incoming, full, i, now)
    requires Progress(existing, st.db, st.added, st.keys, now)
    ensures st' == Run(existing, incoming, full, i + 1, now)
    ensures Progress(existing, st'.db, st'.added, st'.keys, now)
  {
    var db, added, keys, fate := Consider(existing, st.db, st.added, st.keys, incoming[i], id, now);
    Consider_Steps(st, incoming[i], full[i], now, db, added, keys, fate);
    st' := Tally(st.(db := db, added := added, keys := keys), fate);
  }

  /** `main()` of add-plans.js over the plan file `existing` and the
      incoming records. */
  method AddPlans(existing: seq<PlanRecord>, incoming: seq<PlanRecord>, newId: nat -> string, now: int)
    returns (out: Outcome)
    ensures |out.all| == |existing| + |out.added| && out.all[|existing|..] == out.added
    ensures forall k :: 0 <= k < |existing| ==> KeptOrMarked(existing[k], out.all[k], now)
    ensures forall j :: 0 <= j < |out.added| ==> ValidIncoming(out.added[j]) && out.added[j].status == Some("published")
    ensures forall j :: 0 <= j < |out.added| ==> Key(out.added[j]) !in Keys(existing)
    ensures DistinctKeys(out.added)
    ensures |out.added| + out.skipped + out.invalid == |incoming|
    ensures out.replaced <= |out.added|
    ensures out.invalid == Count(Rejected, incoming)
    ensures var r := Run(existing, incoming, Completed(incoming, newId, now), |incoming|, now);
      out.all == r.db + r.added && out.added == r.added && out.replaced == r.replaced && out.skipped == r.skipped
  {
    ghost var full := Completed(incoming, newId, now);
    var st := RunState(existing, [], Keys(existing), 0, 0, 0);
    assert Keys(st.added) == {};
    for i := 0 to |incoming|
      invariant st == Run(existing, incoming, full, i, now)
      invariant Progress(existing, st.db, st.added, st.keys, now)
    {
      st := Turn(existing, incoming, full, i, st, newId(i), now);
    }
    Run_Invalid(existing, incoming, full, |incoming|, now);
    assert incoming[..|incoming|] == incoming;
    out := Outcome(st.db + st.added, st.added, st.replaced, st.skipped, st.invalid);
  }
}

/** The queue of scripts/scrape-queue.js: four buckets of URL items
    (pending, processing, completed, failed) kept in a file, and the
    commands that move items between them. The file is the object's
    state; the extraction service's answers, the clock and the random
    parts of ids are parameters. */
module ScrapeQueue {
  import opened Common
  import opened PlanRecords

  datatype Item = Item(
    id: string, url: string, priority: string, addedAt: int, retryCount: nat,
    result: Option<PlanRecord>, error: Option<string>, completedAt: Option<int>, failedAt: Option<int>)

  /** A freshly queued item. */
  function NewItem(id: string, url: string, now: int): (r: Item)
    ensures r.url == url && r.retryCount == 0 && r.result.None? && r.error.None?
  {
    Item(id, url, "normal", now, 0, None, None, None, None)
  }

  function Urls(items: seq<Item>): (r: seq<string>)
    ensures |r| == |items| && forall i :: 0 <= i < |items| ==> r[i] == items[i].url
  {
    seq(|items|, i requires 0 <= i < |items| => items[i].url)
  }

  function Ids(items: seq<Item>): (r: seq<string>)
    ensures |r| == |items| && forall i :: 0 <= i < |items| ==> r[i] == items[i].id
  {
    seq(|items|, i requires 0 <= i < |items| => items[i].id)
  }

  // ------------------------------------------------------------ extraction

  /** One extraction service's answer for a URL: an HTTP error, a thrown
      error, or a JSON body with its `success` flag and first record. */
  datatype Answer = HttpError(status: int) | Threw(message: string) | Body(success: bool, data: Option<PlanRecord>)

  /** What `aiExtract` hands back. */
  datatype Extraction = Extraction(success: bool, data: Option<PlanRecord>, error: Option<string>)

  const Services: seq<string> := ["firecrawl", "local"]
  const AllFailed := "所有爬蟲服務都失敗"

  /** `aiExtract(null, url)` from the `k`-th service on: the first
      service whose body reports success wins; any other answer moves on
      to the next. */
  function AiExtractFrom(url: string, answer: (string, string) -> Answer, k: nat): (r: Extraction)
    requires k <= |Services|
    ensures !r.success ==> r == Extraction(false, None, Some(AllFailed))
    ensures r.success ==> exists i :: k <= i < |Services| && answer(url, Services[i]) == Body(true, r.data)
    decreases |Services| - k
  {
    if k == |Services| then Extraction(false, None, Some(AllFailed))
    else
      var a := answer(url, Services[k]);
      if a.Body? && a.success then Extraction(true, a.data, None)
      else AiExtractFrom(url, answer, k + 1)
  }

  function AiExtract(url: string, answer: (string, string) -> Answer): Extraction {
    AiExtractFrom(url, answer, 0)
  }

  /** Firecrawl is asked first; local scraping only when it does not
      succeed. */
  lemma AiExtract_Order(url: string, answer: (string, string) -> Answer)
    ensures answer(url, "firecrawl").Body? && answer(url, "firecrawl").success ==>
      AiExtract(url, answer) == Extraction(true, answer(url, "firecrawl").data, None)
    ensures !(answer(url, "firecrawl").Body? && answer(url, "firecrawl").success) ==>
      AiExtract(url, answer) == (if answer(url, "local").Body? && answer(url, "local").success
                                 then Extraction(true, answer(url, "local").data, None)
                                 else Extraction(false, None, Some(AllFailed)))
  {}

  // --------------------------------------------------------- one item run

  lemma Urls_Append(a: seq<Item>, b: seq<Item>)
    ensures Urls(a + b) == Urls(a) + Urls(b)
  {}

  /** URLs found among `before` are still found once items are added. */
  lemma Urls_Grow(urls: seq<string>, i: nat, before: seq<Item>, after: seq<Item>)
    requires i < |urls| && |before| <= |after| && after[..|before|] == before
    requires forall j :: 0 <= j < i ==> urls[j] in Urls(before)
    requires urls[i] in Urls(after)
    ensures forall j :: 0 <= j <= i ==> urls[j] in Urls(after)
  {
    var tail := after[|before|..];
    assert after == before + tail;
    Urls_Append(before, tail);
  }

  /** It ends in completed: the extraction succeeded with data. */
  predicate Succeeds(e: Extraction) {
    e.success && e.data.Some?
  }

  /** The item as it lands in completed or in failed. */
  function Finished(item: Item, e: Extraction, now: int): (r: Item)
    ensures Succeeds(e) ==> r.result.Some? && r.completedAt == Some(now)
    ensures !Succeeds(e) ==> r.failedAt == Some(now) && r.error == e.error
    ensures r.url == item.url && r.id == item.id
  {
    if Succeeds(e) then item.(result := e.data, completedAt := Some(now))
    else item.(error := e.error, failedAt := Some(now))
  }

  /** The items a run adds to completed, and to failed. */
  function Completions(items: seq<Item>, answer: (string, string) -> Answer, now: int): (r: seq<Item>)
    ensures |r| <= |items|
  {
    if items == [] then []
    else
      var item := items[|items| - 1];
      var e := AiExtract(item.url, answer);
      Completions(items[..|items| - 1], answer, now) + (if Succeeds(e) then [Finished(item, e, now)] else [])
  }

  function Failures(items: seq<Item>, answer: (string, string) -> Answer, now: int): (r: seq<Item>)
    ensures |r| <= |items|
  {
    if items == [] then []
    else
      var item := items[|items| - 1];
      var e := AiExtract(item.url, answer);
      Failures(items[..|items| - 1], answer, now) + (if Succeeds(e) then [] else [Finished(item, e, now)])
  }

  lemma Outcomes_Step(items: seq<Item>, i: nat, answer: (string, string) -> Answer, now: int)
    requires i < |items|
    ensures var e := AiExtract(items[i].url, answer);
      Completions(items[..i + 1], answer, now)
        == Completions(items[..i], answer, now) + (if Succeeds(e) then [Finished(items[i], e, now)] else [])
    ensures var e := AiExtract(items[i].url, answer);
      Failures(items[..i + 1], answer, now)
        == Failures(items[..i], answer, now) + (if Succeeds(e) then [] else [Finished(items[i], e, now)])
    ensures items[..i + 1] == items[..i] + [items[i]]
  {
    assert items[..i + 1][..i] == items[..i];
  }

  /** One turn of the run loop keeps its invariant on processing ... */
  lemma RunStep_Processing(proc0: seq<Item>, taken: seq<Item>, i: nat, proc: seq<Item>)
    requires i < |taken| && proc == WithoutIds(proc0, taken[..i])
    ensures Filter((p: Item) => p.id != taken[i].id, proc + [taken[i]]) == WithoutIds(proc0, taken[..i + 1])
  {
    assert taken[..i + 1] == taken[..i] + [taken[i]];
    WithoutIds_Step(proc0, taken[..i], taken[i]);
  }

  /** ... and on completed and failed. */
  lemma RunStep_Outcomes(comp0: seq<Item>, fail0: seq<Item>, taken: seq<Item>, i: nat,
                         comp: seq<Item>, fail: seq<Item>, answer: (string, string) -> Answer, now: int)
    requires i < |taken|
    requires comp == comp0 + Completions(taken[..i], answer, now)
    requires fail == fail0 + Failures(taken[..i], answer, now)
    ensures var e := AiExtract(taken[i].url, answer);
      (if Succeeds(e) then comp + [Finished(taken[i], e, now)] else comp) == comp0 + Completions(taken[..i + 1], answer, now)
    ensures var e := AiExtract(taken[i].url, answer);
      (if Succeeds(e) then fail else fail + [Finished(taken[i], e, now)]) == fail0 + Failures(taken[..i + 1], answer, now)
  {
    Outcomes_Step(taken, i, answer, now);
  }

  /** Every item taken ends in exactly one of completed and failed, each
      with its result or its error. */
  lemma {:induction false} Outcomes_Split(items: seq<Item>, answer: (string, string) -> Answer, now: int)
    ensures |Completions(items, answer, now)| + |Failures(items, answer, now)| == |items|
    ensures forall x :: x in Completions(items, answer, now) ==> x.result.Some? && x.url in Urls(items)
    ensures forall x :: x in Failures(items, answer, now) ==> x.failedAt == Some(now) && x.url in Urls(items)
  {
    if items != [] {
      var init := items[..|items| - 1];
      Outcomes_Split(init, answer, now);
      assert forall i :: 0 <= i < |init| ==> Urls(items)[i] == Urls(init)[i];
      assert Urls(items)[|items| - 1] == items[|items| - 1].url;
    }
  }

  /** Processing without the items whose id is among those of `taken`. */
  function WithoutIds(processing: seq<Item>, taken: seq<Item>): seq<Item> {
    Filter((p: Item) => p.id !in Ids(taken), processing)
  }

  lemma WithoutIds_Step(processing: seq<Item>, taken: seq<Item>, item: Item)
    ensures Filter((p: Item) => p.id != item.id, WithoutIds(processing, taken) + [item])
      == WithoutIds(processing, taken + [item])
  {
    var f := (p: Item) => p.id !in Ids(taken);
    var g := (p: Item) => p.id != item.id;
    var h := (p: Item) => p.id !in Ids(taken + [item]);
    assert Ids(taken + [item]) == Ids(taken) + [item.id];
    Filter_Append(g, Filter(f, processing), [item]);
    assert Filter(g, [item]) == [];
    Filter_Filter(f, g, h, processing);
  }

  /** When no item taken shares an id with an item already in
      processing, processing ends as it began. */
  lemma WithoutIds_Fresh(processing: seq<Item>, taken: seq<Item>)
    requires forall i :: 0 <= i < |processing| ==> processing[i].id !in Ids(taken)
    ensures WithoutIds(processing, taken) == processing
  {
    Filter_All((p: Item) => p.id !in Ids(taken), processing);
  }

  /** The item back in pending after `retry-failed`. */
  function Retried(item: Item): (r: Item)
    ensures r.retryCount == item.retryCount + 1 && r.error.None? && r.failedAt.None?
    ensures r == item.(retryCount := r.retryCount, error := None, failedAt := None)
  {
    item.(retryCount := item.retryCount + 1, error := None, failedAt := None)
  }

  /** The records `exportCompleted` writes: each completed item's result,
      with the item's URL as its source. */
  function Exported(completed: seq<Item>): (r: seq<PlanRecord>)
    ensures |r| <= |completed|
  {
    if completed == [] then []
    else
      var item := completed[|completed| - 1];
      Exported(completed[..|completed| - 1]) + (if item.result.Some? then [item.result.value.(sourceUrl := Some(item.url))] else [])
  }

  /** Each exported record is the result of a completed item, its source
      the item's URL. */
  lemma {:induction false} Exported_Sound(completed: seq<Item>, r: PlanRecord)
    requires r in Exported(completed)
    ensures exists i :: 0 <= i < |completed| && completed[i].result.Some? && r == completed[i].result.value.(sourceUrl := Some(completed[i].url))
  {
    var init := completed[..|completed| - 1];
    if r in Exported(init) {
      Exported_Sound(init, r);
      var i :| 0 <= i < |init| && init[i].result.Some? && r == init[i].result.value.(sourceUrl := Some(init[i].url));
      assert completed[i] == init[i];
    }
  }

  /** The lines of a URL file: trimmed, neither blank nor comments. */
  predicate IsUrlLine(line: string) {
    line != "" && !StartsWith(line, "#")
  }

  function UrlLines(content: string): (r: seq<string>)
    ensures forall i :: 0 <= i < |r| ==> r[i] != "" && !StartsWith(r[i], "#")
  {
    Filter(IsUrlLine, MapSeq(Trim, Split(content, '\n')))
  }

  // --------------------------------------------------------------- queue

  class Queue {
    var pending: seq<Item>
    var processing: seq<Item>
    var completed: seq<Item>
    var failed: seq<Item>

    /** `initQueue()` for a missing queue file: four empty buckets. */
    constructor ()
      ensures pending == [] && processing == [] && completed == [] && failed == []
    {
      pending, processing, completed, failed := [], [], [], [];
    }

    /** The items of every bucket; pending last, where new items go. */
    function All(): seq<Item>
      reads this
    {
      processing + completed + failed + pending
    }

    function Total(): nat
      reads this
    {
      |pending| + |processing| + |completed| + |failed|
    }

    /** No URL is queued twice, in one bucket or across buckets. */
    ghost predicate Valid()
      reads this
    {
      NoDup(Urls(All()))
    }

    /** `addUrl(url)`: a URL already in any bucket is refused, otherwise it
        is appended to pending with no retries. */
    method AddUrl(url: string, id: string, now: int) returns (added: bool)
      modifies this
      ensures added <==> url !in Urls(old(All()))
      ensures pending == (if added then old(pending) + [NewItem(id, url, now)] else old(pending))
      ensures processing == old(processing) && completed == old(completed) && failed == old(failed)
      ensures url in Urls(All())
      ensures All() == old(All()) + (if added then [NewItem(id, url, now)] else [])
      ensures old(Valid()) ==> Valid()
    {
      var all := processing + completed + failed + pending;
      if url in Urls(all) {
        assert All() == all + [];
        return false;
      }
      var item := NewItem(id, url, now);
      pending := pending + [item];
      assert All() == all + [item];
      assert Urls(All()) == Urls(all) + [url];
      if NoDup(Urls(all)) {
        NoDup_Snoc(Urls(all), url);
      }
      return true;
    }

    /** `addFromFile(path)`: `addUrl` for every URL line of the file, in
        order; the `i`-th line's item gets id `stamp_i`. */
    method AddFromFile(content: string, stamp: string, now: int) returns (added: nat)
      modifies this
      ensures processing == old(processing) && completed == old(completed) && failed == old(failed)
      ensures |pending| == |old(pending)| + added && pending[..|old(pending)|] == old(pending)
      ensures forall i :: 0 <= i < |UrlLines(content)| ==> UrlLines(content)[i] in Urls(All())
      ensures old(Valid()) ==> Valid()
    {
      var urls := UrlLines(content);
      added := 0;
      for i := 0 to |urls|
        invariant processing == old(processing) && completed == old(completed) && failed == old(failed)
        invariant |pending| == |old(pending)| + added && old(pending) <= pending
        invariant forall j :: 0 <= j < i ==> urls[j] in Urls(All())
        invariant old(Valid()) ==> Valid()
      {
        ghost var before := All();
        var ok := AddUrl(urls[i], stamp + "_" + NatToString(i), now);
        if ok {
          added := added + 1;
        }
        Urls_Grow(urls, i, before, All());
      }
    }

    /** `runQueue(count)`: up to `count` items from the front of pending,
        each moved to processing, extracted, then taken out of processing
        by id and put in completed or failed. */
    method RunQueue(count: int, answer: (string, string) -> Answer, now: int) returns (processed: nat)
      modifies this
      ensures processed == (if count <= 0 then 0 else Min(count, |old(pending)|))
      ensures pending == old(pending)[processed..]
      ensures completed == old(completed) + Completions(old(pending)[..processed], answer, now)
      ensures failed == old(failed) + Failures(old(pending)[..processed], answer, now)
      ensures processing == WithoutIds(old(processing), old(pending)[..processed])
    {
      var pend, proc, comp, fail := pending, processing, completed, failed;
      processed := if count <= 0 then 0 else Min(count, |pend|);
      var taken := pend[..processed];
      ghost var pend0, proc0, comp0, fail0 := pend, proc, comp, fail;
      assert taken[..0] == [];
      WithoutIds_Fresh(proc0, []);
      for i := 0 to processed
        invariant pend == pend0[i..]
        invariant proc == WithoutIds(proc0, taken[..i])
        invariant comp == comp0 + Completions(taken[..i], answer, now)
        invariant fail == fail0 + Failures(taken[..i], answer, now)
      {
        var item := pend[0];
        assert item == taken[i];
        RunStep_Processing(proc0, taken, i, proc);
        RunStep_Outcomes(comp0, fail0, taken, i, comp, fail, answer, now);
        pend := pend[1..];
        proc := proc + [item];
        var aiResult := AiExtract(item.url, answer);
        proc := Filter((p: Item) => p.id != item.id, proc);
        var done := Finished(item, aiResult, now);
        if Succeeds(aiResult) {
          comp := comp + [done];
        } else {
          fail := fail + [done];
        }
      }
      assert taken[..processed] == taken;
      pending, processing, completed, failed := pend, proc, comp, fail;
    }

    /** `retryFailed()`: every failed item back at the end of pending, its
        retry count raised and its error cleared. */
    method RetryFailed()
      modifies this
      ensures pending == old(pending) + MapSeq(Retried, old(failed))
      ensures failed == [] && processing == old(processing) && completed == old(completed)
      ensures Total() == old(Total())
    {
      var pend, fail := pending, failed;
      ghost var pend0 := pend;
      for i := 0 to |fail|
        invariant pend == pend0 + MapSeq(Retried, fail[..i])
        modifies {}
      {
        MapSeq_Snoc(Retried, fail, i);
        pend := pend + [Retried(fail[i])];
      }
      assert fail[..|fail|] == fail;
      pending, failed := pend, [];
    }

    /** `exportCompleted()`: the results of completed items appended to the
        existing new-plans list, and completed emptied; nothing happens when
        completed is empty. */
    method ExportCompleted(existing: seq<PlanRecord>) returns (allPlans: seq<PlanRecord>, exported: nat)
      modifies this
      ensures allPlans == existing + Exported(old(completed))
      ensures exported == |Exported(old(completed))|
      ensures completed == [] && pending == old(pending) && processing == old(processing) && failed == old(failed)
    {
      if completed == [] {
        return existing, 0;
      }
      var newPlans := Exported(completed);
      allPlans := existing + newPlans;
      completed := [];
      exported := |newPlans|;
    }

    /** The daemon's `runOnce` start: items stuck in processing go back to
        the front of pending. */
    method RecoverStuck()
      modifies this
      ensures pending == old(processing) + old(pending) && processing == []
      ensures completed == old(completed) && failed == old(failed)
      ensures Total() == old(Total())
      ensures multiset(All()) == multiset(old(All()))
    {
      if processing != [] {
        pending := processing + pending;
        processing := [];
      }
    }
  }

  /** Once the extraction runs use fresh ids, a run keeps every item: the
      buckets hold as many items as before. */
  lemma RunQueue_Total(processing: seq<Item>, taken: seq<Item>, answer: (string, string) -> Answer, now: int)
    requires forall i :: 0 <= i < |processing| ==> processing[i].id !in Ids(taken)
    ensures |WithoutIds(processing, taken)| + |Completions(taken, answer, now)| + |Failures(taken, answer, now)|
      == |processing| + |taken|
  {
    WithoutIds_Fresh(processing, taken);
    Outcomes_Split(taken, answer, now);
  }

  // ------------------------------------------------------------ importing

  /** The keys known after the first `n` new plans: the database's and
      each of theirs. */
  function ImportedUpTo(keys: set<string>, plans: seq<PlanRecord>, n: nat, stamp: string, now: int): (r: seq<PlanRecord>)
    requires n <= |plans|
    ensures |r| <= n
  {
    if n == 0 then []
    else
      var p := plans[n - 1];
      ImportedUpTo(keys, plans, n - 1, stamp, now)
      + (if Key(p) in keys + Keys(plans[..n - 1]) then [] else [Published(p, stamp + "_" + NatToString(n - 1), now)])
  }

  /** `fullPlan`: a generated id unless the plan has one, status
      'published', both instants `now`. */
  function Published(p: PlanRecord, id: string, now: int): (r: PlanRecord)
    ensures r.status == Some("published") && Key(r) == Key(p)
    ensures r == p.(id := r.id, status := Some("published"), createdAt := now, updatedAt := now)
  {
    p.(id := if p.id != "" then p.id else id, status := Some("published"), createdAt := now, updatedAt := now)
  }

  /** The imported plans have keys the database lacked. */
  lemma {:induction false} Imported_New(keys: set<string>, plans: seq<PlanRecord>, n: nat, stamp: string, now: int)
    requires n <= |plans|
    ensures forall i :: 0 <= i < |ImportedUpTo(keys, plans, n, stamp, now)| ==>
      Key(ImportedUpTo(keys, plans, n, stamp, now)[i]) !in keys
  {
    if n > 0 {
      Imported_New(keys, plans, n - 1, stamp, now);
    }
  }

  /** Every imported key is the key of one of the first `n` plans. */
  lemma {:induction false} Imported_From(keys: set<string>, plans: seq<PlanRecord>, n: nat, stamp: string, now: int)
    requires n <= |plans|
    ensures forall i :: 0 <= i < |ImportedUpTo(keys, plans, n, stamp, now)| ==>
      Key(ImportedUpTo(keys, plans, n, stamp, now)[i]) in Keys(plans[..n])
  {
    if n > 0 {
      var prev := ImportedUpTo(keys, plans, n - 1, stamp, now);
      var cur := ImportedUpTo(keys, plans, n, stamp, now);
      Imported_From(keys, plans, n - 1, stamp, now);
      assert plans[..n][..n - 1] == plans[..n - 1];
      assert Keys(plans[..n]) == Keys(plans[..n - 1]) + {Key(plans[n - 1])};
      forall i | 0 <= i < |cur| ensures Key(cur[i]) in Keys(plans[..n]) {
        if i < |prev| {
          assert cur[i] == prev[i];
        } else {
          assert Key(cur[i]) == Key(plans[n - 1]);
        }
      }
    }
  }

  /** No two imported plans share a key. */
  lemma {:induction false} Imported_Distinct(keys: set<string>, plans: seq<PlanRecord>, n: nat, stamp: string, now: int)
    requires n <= |plans|
    ensures forall i, j :: 0 <= i < j < |ImportedUpTo(keys, plans, n, stamp, now)| ==>
      Key(ImportedUpTo(keys, plans, n, stamp, now)[i]) != Key(ImportedUpTo(keys, plans, n, stamp, now)[j])
  {
    if n > 0 {
      var prev := ImportedUpTo(keys, plans, n - 1, stamp, now);
      var cur := ImportedUpTo(keys, plans, n, stamp, now);
      Imported_Distinct(keys, plans, n - 1, stamp, now);
      Imported_From(keys, plans, n - 1, stamp, now);
      var p := plans[n - 1];
      if Key(p) !in keys + Keys(plans[..n - 1]) {
        assert cur == prev + [Published(p, stamp + "_" + NatToString(n - 1), now)];
        forall i, j | 0 <= i < j < |cur| ensures Key(cur[i]) != Key(cur[j]) {
          if j == |prev| {
            assert Key(cur[i]) in Keys(plans[..n - 1]);
          } else {
            assert cur[i] == prev[i] && cur[j] == prev[j];
          }
        }
      } else {
        assert cur == prev;
      }
    }
  }

  /** One turn of the import loop keeps its invariant. */
  lemma Import_Step(keys: set<string>, plans: seq<PlanRecord>, k: nat, stamp: string, now: int,
                    added: seq<PlanRecord>, known: set<string>)
    requires k < |plans|
    requires added == ImportedUpTo(keys, plans, k, stamp, now) && known == keys + Keys(plans[..k])
    ensures known + {Key(plans[k])} == keys + Keys(plans[..k + 1])
    ensures (if Key(plans[k]) in known then added else added + [Published(plans[k], stamp + "_" + NatToString(k), now)])
      == ImportedUpTo(keys, plans, k + 1, stamp, now)
  {
    assert plans[..k + 1][..k] == plans[..k];
  }

  /** The loop body of `importToDatabase()` for one plan. */
  method ImportOne(plan: PlanRecord, id: string, now: int, added: seq<PlanRecord>, known: set<string>)
    returns (added': seq<PlanRecord>, known': set<string>)
    ensures added' == (if Key(plan) in known then added else added + [Published(plan, id, now)])
    ensures known' == known + {Key(plan)}
  {
    var key := Key(plan);
    added' := added;
    if key !in known {
      added' := added + [Published(plan, id, now)];
    }
    known' := known + {key};
  }

  /** `importToDatabase()`: each new plan whose key is neither in the
      database nor among the plans added before it, published; the
      database is rewritten only when something was added. */
  method ImportToDatabase(existing: seq<PlanRecord>, newPlans: seq<PlanRecord>, stamp: string, now: int)
    returns (allPlans: seq<PlanRecord>, addedCount: nat)
    ensures allPlans == existing + ImportedUpTo(Keys(existing), newPlans, |newPlans|, stamp, now)
    ensures addedCount == |ImportedUpTo(Keys(existing), newPlans, |newPlans|, stamp, now)|
  {
    var existingKeys := Keys(existing);
    var addedPlans: seq<PlanRecord> := [];
    addedCount := 0;
    for k := 0 to |newPlans|
      invariant addedPlans == ImportedUpTo(Keys(existing), newPlans, k, stamp, now)
      invariant existingKeys == Keys(existing) + Keys(newPlans[..k]) && addedCount == |addedPlans|
    {
      Import_Step(Keys(existing), newPlans, k, stamp, now, addedPlans, existingKeys);
      addedPlans, existingKeys := ImportOne(newPlans[k], stamp + "_" + NatToString(k), now, addedPlans, existingKeys);
      addedCount := |addedPlans|;
    }
    allPlans := existing + addedPlans;
  }
}

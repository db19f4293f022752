/** The batch import dialog: the pasted URL list, the per-item status
    machine of the automatic and manual runs, the manual paste of an AI
    reply, single and bulk import, the retry of failed items, the status
    tally and the reset. The replies of the extraction and scrape routes and
    of the import callback are parameters, one per item position. */
module BatchImportModal {
  import opened Common
  import AiPrompt
  import Json

  datatype Status = Pending | Processing | Success | Error | Imported

  datatype Step = Input | Working | Review

  datatype ProcessMode = Auto | Manual

  /** Parsed plan data, with the source URL a manual parse stamps on it. */
  datatype Draft = Draft(plan: AiPrompt.ParsedPlan, sourceUrl: Option<string>)

  /** `ExtractedItem`. */
  datatype Item = Item(url: string, status: Status, title: Option<string>, parsed: Option<Draft>,
                       error: Option<string>, rawResponse: Option<string>)

  /** What a route answers for one item: a failure with the route's `error`
      text (or a thrown error's message), or its data: the parsed plan, a
      title and a text (the AI's raw reply, or the prompt of the scrape
      route). */
  datatype Reply = Failed(message: Option<string>) | Replied(parsed: Option<Draft>, title: Option<string>, text: Option<string>)

  const NoValidUrl := "請輸入至少一個有效的網址"
  const ProcessFailed := "處理失敗"
  const ScrapeFailed := "爬取失敗"
  const ParseFailed := "解析失敗，請確認 JSON 格式"

  /** `parseUrls(text)`: the trimmed lines that are not empty and that the
      URL constructor accepts (`isUrl`). */
  function ParseUrls(text: string, isUrl: string -> bool): (r: seq<string>)
    ensures forall i :: 0 <= i < |r| ==> r[i] != "" && isUrl(r[i])
  {
    Filter((line: string) => line != "" && isUrl(line), MapSeq(Trim, Split(text, '\n')))
  }

  /** A kept line is the trimmed text of an input line, non-empty and a
      URL; conversely every such text is kept. */
  lemma ParseUrls_Sound(text: string, isUrl: string -> bool, u: string)
    requires u in ParseUrls(text, isUrl)
    ensures u != "" && isUrl(u) && exists line :: line in Split(text, '\n') && Trim(line) == u
  {
    var lines := Split(text, '\n');
    var trimmed := MapSeq(Trim, lines);
    Filter_Mem((line: string) => line != "" && isUrl(line), trimmed, u);
    var k :| 0 <= k < |trimmed| && trimmed[k] == u;
    assert lines[k] in lines && Trim(lines[k]) == u;
  }

  lemma ParseUrls_Complete(text: string, isUrl: string -> bool, line: string)
    requires line in Split(text, '\n') && Trim(line) != "" && isUrl(Trim(line))
    ensures Trim(line) in ParseUrls(text, isUrl)
  {
    var lines := Split(text, '\n');
    var trimmed := MapSeq(Trim, lines);
    var k :| 0 <= k < |lines| && lines[k] == line;
    assert trimmed[k] == Trim(line);
    Filter_Mem((line: string) => line != "" && isUrl(line), trimmed, Trim(line));
  }

  function PendingItem(url: string): Item {
    Item(url, Pending, None, None, None, None)
  }

  /** `data.error || fallback`. */
  function ErrorText(message: Option<string>, fallback: string): (r: string)
    ensures fallback != "" ==> r != ""
  {
    if Present(message) then message.value else fallback
  }

  /** The item after its reply in a run: the automatic run keeps the parsed
      plan and the raw reply, titled by the parsed title or else the scraped
      one; the manual run keeps the scraped title and the prompt. */
  function AfterReply(mode: ProcessMode, it: Item, reply: Reply): (r: Item)
    ensures r.url == it.url
    ensures r.status == Error <==> reply.Failed?
    ensures r.status == Success <==> reply.Replied?
    ensures reply.Failed? ==> r.error.Some? && r.error.value != "" && r.parsed == it.parsed
  {
    match reply
    case Failed(m) => it.(status := Error, error := Some(ErrorText(m, if mode == Auto then ProcessFailed else ScrapeFailed)))
    case Replied(parsed, title, text) =>
      if mode == Auto then
        it.(status := Success,
            title := if parsed.Some? && parsed.value.plan.title != "" then Some(parsed.value.plan.title) else title,
            parsed := parsed, rawResponse := text)
      else it.(status := Success, title := title, rawResponse := text)
  }

  /** The 'processing' mark a run puts on an item first is overwritten by
      its reply. */
  lemma AfterReply_Mark(mode: ProcessMode, it: Item, reply: Reply)
    ensures AfterReply(mode, it.(status := Processing), reply) == AfterReply(mode, it, reply)
  {
  }

  /** The items a run ends with: each URL's pending item after its reply. */
  function Processed(mode: ProcessMode, urls: seq<string>, fetch: nat -> Reply): (r: seq<Item>)
    ensures |r| == |urls|
  {
    seq(|urls|, k requires 0 <= k < |urls| => AfterReply(mode, PendingItem(urls[k]), fetch(k)))
  }

  /** After a run every item belongs to its URL, in input order, and is
      settled: 'success' or 'error', never 'pending', 'processing' or
      'imported'. */
  lemma Processed_Settled(mode: ProcessMode, urls: seq<string>, fetch: nat -> Reply, k: nat)
    requires k < |urls|
    ensures Processed(mode, urls, fetch)[k].url == urls[k]
    ensures Processed(mode, urls, fetch)[k].status in {Success, Error}
    ensures Processed(mode, urls, fetch)[k].status == Error <==> fetch(k).Failed?
  {
    assert Processed(mode, urls, fetch)[k] == AfterReply(mode, PendingItem(urls[k]), fetch(k));
  }

  /** The retry's reply: the item is 'success' with the parsed title, or
      'error' again with the new message. */
  function AfterRetry(it: Item, reply: Reply): (r: Item)
    ensures r.url == it.url && r.status in {Success, Error}
    ensures r.status == Error ==> r.error.Some?
  {
    var p := it.(status := Processing, error := None);
    match reply
    case Failed(m) => p.(status := Error, error := Some(ErrorText(m, ProcessFailed)))
    case Replied(parsed, _, text) =>
      p.(status := Success, title := if parsed.Some? then Some(parsed.value.plan.title) else None,
         parsed := parsed, rawResponse := text)
  }

  /** The item after its import: 'imported' when the callback succeeds
      (`None`), the callback's message otherwise; an item without parsed
      data is not imported. */
  function AfterImport(it: Item, outcome: Option<string>): (r: Item)
    ensures r.status == Imported ==> r.parsed.Some? || it.status == Imported
    ensures it.parsed.None? ==> r == it
    ensures r.url == it.url && r.parsed == it.parsed
  {
    if it.parsed.None? then it
    else if outcome.None? then it.(status := Imported)
    else it.(error := outcome)
  }

  /** Bulk import by position: each successful item with parsed data is
      imported, every other item is left alone. */
  predicate Importable(it: Item) {
    it.status == Success && it.parsed.Some?
  }

  function ImportedAll(items: seq<Item>, onImport: nat -> Option<string>): (r: seq<Item>)
    ensures |r| == |items|
  {
    seq(|items|, k requires 0 <= k < |items| => if Importable(items[k]) then AfterImport(items[k], onImport(k)) else items[k])
  }

  /** Retry by position: each failed item gets its retry reply. */
  function RetriedAll(items: seq<Item>, fetch: nat -> Reply): (r: seq<Item>)
    ensures |r| == |items|
  {
    seq(|items|, k requires 0 <= k < |items| => if items[k].status == Error then AfterRetry(items[k], fetch(k)) else items[k])
  }

  /** Bulk import and retry touch only the items they are about: a
      non-importable item stays as it was under import, a non-failed item
      under retry; a retried item leaves the error state only on success. */
  lemma ImportRetry_Touch(items: seq<Item>, onImport: nat -> Option<string>, fetch: nat -> Reply, k: nat)
    requires k < |items|
    ensures !Importable(items[k]) ==> ImportedAll(items, onImport)[k] == items[k]
    ensures Importable(items[k]) ==> (ImportedAll(items, onImport)[k].status == Imported <==> onImport(k).None?)
    ensures items[k].status != Error ==> RetriedAll(items, fetch)[k] == items[k]
    ensures items[k].status == Error ==> (RetriedAll(items, fetch)[k].status == Success <==> fetch(k).Replied?)
  {
  }

  /** Only items with parsed data are ever 'imported'. */
  predicate ImportedParsed(items: seq<Item>) {
    forall k :: 0 <= k < |items| && items[k].status == Imported ==> items[k].parsed.Some?
  }

  /** Every step of the dialog keeps that: a run, a bulk import and a retry. */
  lemma ImportedParsed_Kept(mode: ProcessMode, urls: seq<string>, items: seq<Item>, onImport: nat -> Option<string>, fetch: nat -> Reply)
    requires ImportedParsed(items)
    ensures ImportedParsed(Processed(mode, urls, fetch))
    ensures ImportedParsed(ImportedAll(items, onImport))
    ensures ImportedParsed(RetriedAll(items, fetch))
  {
    var p := Processed(mode, urls, fetch);
    forall k | 0 <= k < |p| ensures p[k].status != Imported {
      Processed_Settled(mode, urls, fetch, k);
    }
    var a := ImportedAll(items, onImport);
    forall k | 0 <= k < |a| && a[k].status == Imported ensures a[k].parsed.Some? {
      assert a[k] == if Importable(items[k]) then AfterImport(items[k], onImport(k)) else items[k];
    }
    var t := RetriedAll(items, fetch);
    forall k | 0 <= k < |t| && t[k].status == Imported ensures t[k].parsed.Some? {
      assert t[k] == if items[k].status == Error then AfterRetry(items[k], fetch(k)) else items[k];
    }
  }

  // ------------------------------------------------- the code as written

  /** The callback's outcome written on an item: 'imported' on success,
      the message otherwise. */
  function Outcome(it: Item, o: Option<string>): Item {
    if o.None? then it.(status := Imported) else it.(error := o)
  }

  /** `prev.map(it => it.url === url ? ... : it)`. */
  function MarkUrl(items: seq<Item>, url: string, o: Option<string>): (r: seq<Item>)
    ensures |r| == |items|
    ensures forall k :: 0 <= k < |items| ==> r[k] == if items[k].url == url then Outcome(items[k], o) else items[k]
  {
    seq(|items|, k requires 0 <= k < |items| => if items[k].url == url then Outcome(items[k], o) else items[k])
  }

  /** `handleImportAll` as written, from position `k` on: the outcome of an
      importable item is written on every item with the same URL. */
  function ImportAllByUrl(items: seq<Item>, onImport: nat -> Option<string>, k: nat, s: seq<Item>): (r: seq<Item>)
    requires |s| == |items|
    ensures |r| == |items|
    decreases |items| - k
  {
    if k >= |items| then s
    else if !Importable(items[k]) then ImportAllByUrl(items, onImport, k + 1, s)
    else ImportAllByUrl(items, onImport, k + 1, MarkUrl(s, items[k].url, onImport(k)))
  }

  /** The same URL pasted twice, once extracted and once failed: importing
      the first marks the failed one 'imported' though it has no data. */
  lemma ImportAllByUrl_ImportsFailed(d: Draft, onImport: nat -> Option<string>)
    requires onImport(0).None?
    ensures var items := [Item("u", Success, None, Some(d), None, None), Item("u", Error, None, None, Some("x"), None)];
            var r := ImportAllByUrl(items, onImport, 0, items);
            ImportedParsed(items) && r[1].status == Imported && r[1].parsed.None? && !ImportedParsed(r)
  {
    var items := [Item("u", Success, None, Some(d), None, None), Item("u", Error, None, None, Some("x"), None)];
    var s1 := MarkUrl(items, "u", onImport(0));
    assert ImportAllByUrl(items, onImport, 0, items) == ImportAllByUrl(items, onImport, 1, s1);
    assert ImportAllByUrl(items, onImport, 1, s1) == ImportAllByUrl(items, onImport, 2, s1);
    assert s1[1].status == Imported;
  }

  /** The first position holding `url`, as `findIndex` gives it. */
  function FirstWithUrl(items: seq<Item>, url: string): (i: int)
    ensures -1 <= i < |items|
    ensures i >= 0 ==> items[i].url == url
  {
    if items == [] then -1
    else if items[0].url == url then 0
    else var j := FirstWithUrl(items[1..], url); if j < 0 then -1 else j + 1
  }

  /** `handleRetryFailed` as written, from position `k` on: a failed item's
      reply is written to the first item with its URL. */
  function RetryByUrl(items: seq<Item>, fetch: nat -> Reply, k: nat, s: seq<Item>): (r: seq<Item>)
    requires |s| == |items|
    ensures |r| == |items|
    decreases |items| - k
  {
    if k >= |items| then s
    else if items[k].status != Error then RetryByUrl(items, fetch, k + 1, s)
    else
      var i := FirstWithUrl(items, items[k].url);
      RetryByUrl(items, fetch, k + 1, if 0 <= i then s[i := AfterRetry(s[i], fetch(k))] else s)
  }

  /** The same URL pasted twice, the first extracted and the second
      failed: the retry overwrites the extracted item and leaves the failed
      one failed. */
  lemma RetryByUrl_TouchesSuccess(d: Draft, fetch: nat -> Reply)
    requires fetch(1).Failed?
    ensures var items := [Item("u", Success, None, Some(d), None, None), Item("u", Error, None, None, Some("x"), None)];
            var r := RetryByUrl(items, fetch, 0, items);
            items[0].status == Success && r[0].status == Error && r[1] == items[1]
  {
    var items := [Item("u", Success, None, Some(d), None, None), Item("u", Error, None, None, Some("x"), None)];
    assert FirstWithUrl(items, "u") == 0;
    var s1 := items[0 := AfterRetry(items[0], fetch(1))];
    assert RetryByUrl(items, fetch, 0, items) == RetryByUrl(items, fetch, 1, items);
    assert RetryByUrl(items, fetch, 1, items) == RetryByUrl(items, fetch, 2, s1);
  }

  // ------------------------------------------------------------ manual parse

  function ResponseFor(responses: map<string, string>, url: string): string {
    if url in responses then responses[url] else ""
  }

  /** The item after its typed reply is parsed: a blank reply leaves it; a
      reply that does not parse, or lacks the vendor name or the title, only
      sets the parse message; otherwise the plan, stamped with the item's
      URL, is stored and the item becomes 'success'. */
  function ManualParse(it: Item, response: string, parse: string -> Option<Json.Json>): (r: Item)
    ensures r.url == it.url
    ensures Trim(response) == "" ==> r == it
    ensures r.parsed != it.parsed ==>
              r.status == Success && r.parsed.Some? && r.parsed.value.sourceUrl == Some(it.url)
              && r.parsed.value.plan.vendorName != "" && r.parsed.value.plan.title != ""
              && Some(r.parsed.value.plan) == AiPrompt.ParseAIResponse(response, parse)
    ensures r.status != it.status ==> r.status == Success && r.parsed.Some?
  {
    if Trim(response) == "" then it
    else
      var parsed := AiPrompt.ParseAIResponse(response, parse);
      if parsed.None? || parsed.value.vendorName == "" || parsed.value.title == "" then it.(error := Some(ParseFailed))
      else it.(parsed := Some(Draft(parsed.value, Some(it.url))), status := Success)
  }

  /** A non-blank reply the parser cannot use sets exactly the parse
      message and nothing else. */
  lemma ManualParse_Fails(it: Item, response: string, parse: string -> Option<Json.Json>)
    requires Trim(response) != ""
    requires AiPrompt.ParseAIResponse(response, parse).None?
    ensures ManualParse(it, response, parse) == it.(error := Some(ParseFailed))
  {
  }

  // ------------------------------------------------------------ stats

  predicate IsSuccess(it: Item) { it.status == Success }
  predicate IsImported(it: Item) { it.status == Imported }
  predicate IsError(it: Item) { it.status == Error }
  predicate IsWaiting(it: Item) { it.status == Pending || it.status == Processing }

  datatype Stats = Stats(total: nat, success: nat, imported: nat, error: nat, pending: nat)

  /** The tally under the dialog; 'processing' counts as pending. */
  function StatsOf(items: seq<Item>): (s: Stats)
    ensures s.total == |items|
  {
    Stats(|items|, Count(IsSuccess, items), Count(IsImported, items), Count(IsError, items), Count(IsWaiting, items))
  }

  /** The five statuses partition the items, so the four counts add up to
      the total. */
  lemma {:induction false} Stats_Partition(items: seq<Item>)
    ensures var s := StatsOf(items); s.success + s.imported + s.error + s.pending == s.total
  {
    if items != [] {
      var init := items[..|items| - 1];
      var x := items[|items| - 1];
      assert items == init + [x];
      Stats_Partition(init);
      Count_Append(IsSuccess, init, [x]);
      Count_Append(IsImported, init, [x]);
      Count_Append(IsError, init, [x]);
      Count_Append(IsWaiting, init, [x]);
      assert Filter(IsSuccess, [x]) == (if IsSuccess(x) then [x] else []) + Filter(IsSuccess, []);
      assert Filter(IsImported, [x]) == (if IsImported(x) then [x] else []) + Filter(IsImported, []);
      assert Filter(IsError, [x]) == (if IsError(x) then [x] else []) + Filter(IsError, []);
      assert Filter(IsWaiting, [x]) == (if IsWaiting(x) then [x] else []) + Filter(IsWaiting, []);
    }
  }

  // ------------------------------------------------------------ the dialog

  /** The dialog's state, as its `useState` hooks hold it. */
  class BatchImport {
    var urls: string
    var step: Step
    var items: seq<Item>
    var error: Option<string>
    var isLoading: bool
    var copiedAll: bool
    var manualResponses: map<string, string>
    var currentIndex: nat

    /** No item is 'imported' without parsed data. */
    predicate Valid()
      reads this
    {
      ImportedParsed(items)
    }

    constructor()
      ensures Valid()
      ensures urls == "" && step == Input && items == [] && error == None && !isLoading
      ensures !copiedAll && manualResponses == map[] && currentIndex == 0
    {
      urls := "";
      step := Input;
      items := [];
      error := None;
      isLoading := false;
      copiedAll := false;
      manualResponses := map[];
      currentIndex := 0;
    }

    /** `resetState()`: back to the empty input step; the loading flag is
        not touched. */
    method ResetState()
      modifies this
      ensures Valid()
      ensures urls == "" && step == Input && items == [] && error == None
      ensures !copiedAll && manualResponses == map[] && currentIndex == 0
      ensures isLoading == old(isLoading)
    {
      urls := "";
      step := Input;
      items := [];
      error := None;
      copiedAll := false;
      manualResponses := map[];
      currentIndex := 0;
    }

    /** The reply text typed under an item, keyed by its URL. */
    method SetManualResponse(url: string, text: string)
      modifies this
      requires Valid()
      ensures Valid()
      ensures manualResponses == old(manualResponses)[url := text]
      ensures items == old(items) && step == old(step)
    {
      manualResponses := manualResponses[url := text];
    }

    /** `handleAutoProcess` (`Auto`) and `handleManualScrape` (`Manual`):
        without a valid URL only the message is set; otherwise each URL gets
        a pending item, the items are sent one after the other, each marked
        'processing' and then settled by its reply, and the dialog moves to
        the review step. */
    method Process(mode: ProcessMode, isUrl: string -> bool, fetch: nat -> Reply)
      modifies this
      requires Valid()
      ensures Valid()
      ensures ParseUrls(old(urls), isUrl) == [] ==>
                error == Some(NoValidUrl) && items == old(items) && step == old(step) && isLoading == old(isLoading)
      ensures ParseUrls(old(urls), isUrl) != [] ==>
                items == Processed(mode, ParseUrls(old(urls), isUrl), fetch) && step == Review
                && error == None && !isLoading && currentIndex == |items| - 1
      ensures urls == old(urls) && manualResponses == old(manualResponses)
    {
      var urlList := ParseUrls(urls, isUrl);
      if urlList == [] {
        error := Some(NoValidUrl);
        return;
      }
      error := None;
      isLoading := true;
      step := Working;
      RunItems(mode, urlList, fetch);
      isLoading := false;
      step := Review;
      ImportedParsed_Kept(mode, urlList, [], (k: nat) => None, fetch);
    }

    /** The loop of a run: pending items for the URLs, then each one marked
        'processing' and settled by its reply, in order. */
    method RunItems(mode: ProcessMode, urlList: seq<string>, fetch: nat -> Reply)
      modifies this
      requires urlList != []
      ensures items == Processed(mode, urlList, fetch) && currentIndex == |urlList| - 1
      ensures urls == old(urls) && manualResponses == old(manualResponses) && step == old(step)
      ensures error == old(error) && isLoading == old(isLoading)
    {
      items := seq(|urlList|, k requires 0 <= k < |urlList| => PendingItem(urlList[k]));
      var i := 0;
      while i < |urlList|
        invariant 0 <= i <= |urlList| && |items| == |urlList|
        invariant forall k :: 0 <= k < i ==> items[k] == AfterReply(mode, PendingItem(urlList[k]), fetch(k))
        invariant forall k :: i <= k < |urlList| ==> items[k] == PendingItem(urlList[k])
        invariant i > 0 ==> currentIndex == i - 1
        invariant urls == old(urls) && manualResponses == old(manualResponses) && step == old(step)
        invariant error == old(error) && isLoading == old(isLoading)
      {
        currentIndex := i;
        AfterReply_Mark(mode, items[i], fetch(i));
        items := items[i := items[i].(status := Processing)];
        items := items[i := AfterReply(mode, items[i], fetch(i))];
        i := i + 1;
      }
      assert items == Processed(mode, urlList, fetch);
    }

    /** `handleParseManualResponse(index)`, on the reply typed under the
        item's URL (empty when none was typed). */
    method ParseManualResponse(index: nat, parse: string -> Option<Json.Json>)
      modifies this
      requires Valid() && index < |items|
      ensures Valid()
      ensures items == old(items)[index := ManualParse(old(items)[index], ResponseFor(old(manualResponses), old(items)[index].url), parse)]
      ensures step == old(step) && manualResponses == old(manualResponses) && urls == old(urls)
    {
      var it := items[index];
      var response := ResponseFor(manualResponses, it.url);
      items := items[index := ManualParse(it, response, parse)];
    }

    /** `handleImportItem(index)`: an item without parsed data is left
        alone; otherwise the callback's outcome is recorded. */
    method ImportItem(index: nat, outcome: Option<string>)
      modifies this
      requires Valid() && index < |items|
      ensures Valid()
      ensures items == old(items)[index := AfterImport(old(items)[index], outcome)]
      ensures step == old(step) && manualResponses == old(manualResponses) && urls == old(urls)
    {
      items := items[index := AfterImport(items[index], outcome)];
    }

    /** `handleImportAll()`, applied by position: each extracted item with
        parsed data is imported in turn and only that item is updated. */
    method ImportAll(onImport: nat -> Option<string>)
      modifies this
      requires Valid()
      ensures Valid()
      ensures items == ImportedAll(old(items), onImport) && !isLoading
      ensures step == old(step) && manualResponses == old(manualResponses) && urls == old(urls)
    {
      isLoading := true;
      ghost var start := items;
      var i := 0;
      while i < |items|
        invariant 0 <= i <= |items| && |items| == |start|
        invariant forall k :: 0 <= k < i ==> items[k] == ImportedAll(start, onImport)[k]
        invariant forall k :: i <= k < |items| ==> items[k] == start[k]
        invariant start == old(items) && step == old(step) && manualResponses == old(manualResponses) && urls == old(urls)
      {
        if Importable(items[i]) {
          items := items[i := AfterImport(items[i], onImport(i))];
        }
        i := i + 1;
      }
      isLoading := false;
      ImportedParsed_Kept(Auto, [], start, onImport, (k: nat) => Failed(None));
    }

    /** `handleRetryFailed()`, applied by position: nothing without a
        failed item; otherwise each failed item is sent again and settled by
        its reply, and no other item is touched. */
    method RetryFailed(fetch: nat -> Reply)
      modifies this
      requires Valid()
      ensures Valid()
      ensures items == RetriedAll(old(items), fetch)
      ensures Count(IsError, old(items)) == 0 ==> isLoading == old(isLoading)
      ensures Count(IsError, old(items)) > 0 ==> !isLoading
      ensures step == old(step) && manualResponses == old(manualResponses) && urls == old(urls)
    {
      if Count(IsError, items) == 0 {
        Count_Zero(IsError, items);
        assert items == RetriedAll(items, fetch);
        return;
      }
      isLoading := true;
      ghost var start := items;
      var i := 0;
      while i < |items|
        invariant 0 <= i <= |items| && |items| == |start|
        invariant forall k :: 0 <= k < i ==> items[k] == RetriedAll(start, fetch)[k]
        invariant forall k :: i <= k < |items| ==> items[k] == start[k]
        invariant start == old(items) && step == old(step) && manualResponses == old(manualResponses) && urls == old(urls)
      {
        if items[i].status == Error {
          items := items[i := items[i].(status := Processing, error := None)];
          items := items[i := AfterRetry(items[i], fetch(i))];
        }
        i := i + 1;
      }
      isLoading := false;
      ImportedParsed_Kept(Auto, [], start, (k: nat) => None, fetch);
    }
  }
}

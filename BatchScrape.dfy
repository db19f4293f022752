/** The resumable batch scraper of scripts/batch-scrape-v2.js. Each URL of
    the URL file is scraped through the scrape service (retrying, then
    switching service), its page is handed to the AI extraction service
    (retrying), and one result line is appended to the progress. The
    answers of the two services are parameters: `scrape(url, service, n)`
    is what the `n`-th attempt at `service` yields, `None` for any failure
    (an HTTP error, a thrown error, a body with `success: false`), and
    `ai(url, n)` is what the `n`-th extraction attempt yields. Delays,
    time-outs and console output are not modelled. */
module BatchScrape {
  import opened Common
  import opened PlanRecords
  import ScrapeQueue

  const MaxRetries: nat := 3
  const Services: seq<string> := ["jina", "local"]

  /** The largest number of scrape attempts for one URL. */
  const Tries: nat := |Services| * MaxRetries

  const AllServicesFailed := "所有服務都失敗"
  const AiFailed := "AI 解析失敗（已重試）"
  const SkippedError := "非產品頁，已跳過"

  /** What the scrape service returns on success (the page's title and the
      length of its content). */
  datatype ScrapedData = ScrapedData(title: Option<string>, contentLength: nat)

  type ScrapeAnswers = (string, string, nat) -> Option<ScrapedData>

  /** A body with `success: true` from the AI service (its `data` may be
      null), or any failure of the attempt. */
  datatype AiAnswer = AiAttemptFailed | AiReturned(data: Option<PlanRecord>, error: Option<string>)

  type AiAnswers = (string, nat) -> AiAnswer

  // ----------------------------------------------------------- scraping

  /** The `k`-th scrape attempt, counting from 0, goes to the service
      `Services[k / MaxRetries]` and is that service's attempt number
      `k % MaxRetries + 1`. */
  function ServiceOf(k: nat): string
    requires k < Tries
  {
    Services[k / MaxRetries]
  }

  function AttemptOf(k: nat): nat {
    k % MaxRetries + 1
  }

  predicate Succeeds(url: string, scrape: ScrapeAnswers, k: nat)
    requires k < Tries
  {
    scrape(url, ServiceOf(k), AttemptOf(k)).Some?
  }

  datatype Scraped = ScrapeOk(service: string, data: ScrapedData) | ScrapeFailed(error: string)

  /** `scrapeWithRetry` from the `k`-th attempt on: the outcome and the
      number of attempts made so far when it returns. */
  function ScrapeFrom(url: string, scrape: ScrapeAnswers, k: nat): (r: (Scraped, nat))
    requires k <= Tries
    ensures k <= r.1 <= Tries
    decreases Tries - k
  {
    if k == Tries then (ScrapeFailed(AllServicesFailed), k)
    else
      var answer := scrape(url, ServiceOf(k), AttemptOf(k));
      if answer.Some? then (ScrapeOk(ServiceOf(k), answer.value), k + 1)
      else ScrapeFrom(url, scrape, k + 1)
  }

  /** A scrape succeeds exactly when some attempt from the `k`-th on
      succeeds. */
  lemma {:induction false} ScrapeFrom_Succeeds(url: string, scrape: ScrapeAnswers, k: nat)
    requires k <= Tries
    ensures ScrapeFrom(url, scrape, k).0.ScrapeOk? <==> exists j :: k <= j < Tries && Succeeds(url, scrape, j)
    decreases Tries - k
  {
    if k < Tries && !Succeeds(url, scrape, k) {
      ScrapeFrom_Succeeds(url, scrape, k + 1);
    }
  }

  /** The outcome is the first attempt that succeeds, in service order then
      attempt order, and every attempt before it failed; with none, the
      error is `AllServicesFailed` after every attempt. */
  lemma {:induction false} ScrapeFrom_First(url: string, scrape: ScrapeAnswers, k: nat)
    requires k <= Tries
    ensures var r := ScrapeFrom(url, scrape, k);
            (r.0.ScrapeOk? ==> k < r.1 && Succeeds(url, scrape, r.1 - 1))
            && (r.0.ScrapeOk? ==> r.0 == ScrapeOk(ServiceOf(r.1 - 1), scrape(url, ServiceOf(r.1 - 1), AttemptOf(r.1 - 1)).value))
            && (forall j :: k <= j < r.1 - 1 ==> !Succeeds(url, scrape, j))
            && (r.0.ScrapeFailed? ==> r.0.error == AllServicesFailed && r.1 == Tries)
    decreases Tries - k
  {
    if k < Tries && !Succeeds(url, scrape, k) {
      ScrapeFrom_First(url, scrape, k + 1);
    }
  }

  /** Attempt `n` at `Services[s]` is the attempt numbered
      `s * MaxRetries + n - 1`. */
  lemma TryNumber(s: nat, n: nat)
    requires s < |Services| && 1 <= n <= MaxRetries
    ensures s * MaxRetries + n - 1 < Tries
    ensures ServiceOf(s * MaxRetries + n - 1) == Services[s] && AttemptOf(s * MaxRetries + n - 1) == n
  {
  }

  /** One attempt of the scan: a failed attempt passes on to the next. */
  lemma ScrapeFrom_Next(url: string, scrape: ScrapeAnswers, k: nat)
    requires k < Tries
    ensures scrape(url, ServiceOf(k), AttemptOf(k)).None? ==> ScrapeFrom(url, scrape, k) == ScrapeFrom(url, scrape, k + 1)
    ensures scrape(url, ServiceOf(k), AttemptOf(k)).Some? ==>
            ScrapeFrom(url, scrape, k) == (ScrapeOk(ServiceOf(k), scrape(url, ServiceOf(k), AttemptOf(k)).value), k + 1)
  {
  }

  /** `scrapeWithRetry(url)`: the outcome and the number of attempts made. */
  method ScrapeWithRetry(url: string, scrape: ScrapeAnswers) returns (r: Scraped, attempts: nat)
    ensures (r, attempts) == ScrapeFrom(url, scrape, 0)
  {
    attempts := 0;
    for s := 0 to |Services|
      invariant attempts == s * MaxRetries
      invariant ScrapeFrom(url, scrape, attempts) == ScrapeFrom(url, scrape, 0)
    {
      var service := Services[s];
      for attempt := 1 to MaxRetries + 1
        invariant attempts == s * MaxRetries + attempt - 1
        invariant ScrapeFrom(url, scrape, attempts) == ScrapeFrom(url, scrape, 0)
      {
        TryNumber(s, attempt);
        ScrapeFrom_Next(url, scrape, attempts);
        var answer := scrape(url, service, attempt);
        attempts := attempts + 1;
        if answer.Some? {
          r := ScrapeOk(service, answer.value);
          assert (r, attempts) == ScrapeFrom(url, scrape, 0);
          return;
        }
      }
    }
    r := ScrapeFailed(AllServicesFailed);
    assert attempts == Tries;
    assert (r, attempts) == ScrapeFrom(url, scrape, Tries);
  }

  /** At most `|Services| * MaxRetries` attempts are made; every service is
      tried, in order, before the URL is given up. */
  lemma Scrape_Bounded(url: string, scrape: ScrapeAnswers)
    ensures ScrapeFrom(url, scrape, 0).1 <= Tries
    ensures ScrapeFrom(url, scrape, 0).0.ScrapeFailed? <==>
            forall s, n :: 0 <= s < |Services| && 1 <= n <= MaxRetries ==> scrape(url, Services[s], n).None?
  {
    var r := ScrapeFrom(url, scrape, 0);
    ScrapeFrom_Succeeds(url, scrape, 0);
    ScrapeFrom_First(url, scrape, 0);
    if r.0.ScrapeFailed? {
      forall s, n | 0 <= s < |Services| && 1 <= n <= MaxRetries
        ensures scrape(url, Services[s], n).None?
      {
        TryNumber(s, n);
        assert !Succeeds(url, scrape, s * MaxRetries + n - 1);
      }
    } else {
      var j :| 0 <= j < Tries && Succeeds(url, scrape, j);
      assert scrape(url, Services[j / MaxRetries], AttemptOf(j)).Some?;
    }
  }

  /** The first service is always preferred: when its first attempt
      succeeds, nothing else is asked. */
  lemma Scrape_FirstAttempt(url: string, scrape: ScrapeAnswers)
    requires scrape(url, "jina", 1).Some?
    ensures ScrapeFrom(url, scrape, 0) == (ScrapeOk("jina", scrape(url, "jina", 1).value), 1)
  {
    assert ServiceOf(0) == "jina" && AttemptOf(0) == 1;
  }

  // ---------------------------------------------------------- extraction

  datatype AiResult = AiOk(data: Option<PlanRecord>, error: Option<string>) | AiGaveUp(reason: string)

  /** `aiExtractWithRetry` from attempt `n` on: the first returned body and
      the number of attempts made so far. */
  function AiFrom(url: string, ai: AiAnswers, n: nat): (r: (AiResult, nat))
    requires 1 <= n <= MaxRetries + 1
    ensures n - 1 <= r.1 <= MaxRetries
    decreases MaxRetries + 1 - n
  {
    if n > MaxRetries then (AiGaveUp(AiFailed), MaxRetries)
    else
      match ai(url, n)
      case AiReturned(data, error) => (AiOk(data, error), n)
      case AiAttemptFailed => AiFrom(url, ai, n + 1)
  }

  /** The outcome is the first body the service returns, after failed
      attempts only; with none in `MaxRetries` attempts, the error is
      `AiFailed`. */
  lemma {:induction false} AiFrom_First(url: string, ai: AiAnswers, n: nat)
    requires 1 <= n <= MaxRetries + 1
    ensures var r := AiFrom(url, ai, n);
            (r.0.AiOk? <==> exists m :: n <= m <= MaxRetries && ai(url, m).AiReturned?)
            && (r.0.AiOk? ==> n <= r.1 && ai(url, r.1) == AiReturned(r.0.data, r.0.error))
            && (forall m :: n <= m < r.1 ==> ai(url, m).AiAttemptFailed?)
            && (r.0.AiGaveUp? ==> r.0.reason == AiFailed && r.1 == MaxRetries)
    decreases MaxRetries + 1 - n
  {
    if n <= MaxRetries && ai(url, n).AiAttemptFailed? {
      AiFrom_First(url, ai, n + 1);
    }
  }

  /** `aiExtractWithRetry(scraped, url)`: the outcome and the attempts made. */
  method AiExtractWithRetry(url: string, ai: AiAnswers) returns (r: AiResult, attempts: nat)
    ensures (r, attempts) == AiFrom(url, ai, 1)
  {
    attempts := 0;
    for attempt := 1 to MaxRetries + 1
      invariant attempts == attempt - 1
      invariant AiFrom(url, ai, attempt) == AiFrom(url, ai, 1)
    {
      var answer := ai(url, attempt);
      attempts := attempts + 1;
      if answer.AiReturned? {
        return AiOk(answer.data, answer.error), attempts;
      }
    }
    r := AiGaveUp(AiFailed);
  }

  // ---------------------------------------------------------- URL filter

  predicate WordChar(c: char) {
    'a' <= c <= 'z' || 'A' <= c <= 'Z' || '0' <= c <= '9' || c == '_'
  }

  /** The end of the run of word characters that starts at `i`. */
  function WordEnd(s: string, i: nat): (e: nat)
    requires i <= |s|
    ensures i <= e <= |s|
    ensures forall k :: i <= k < e ==> WordChar(s[k])
    ensures e == |s| || !WordChar(s[e])
    decreases |s| - i
  {
    if i < |s| && WordChar(s[i]) then WordEnd(s, i + 1) else i
  }

  /** `[^\/]+\/?` up to the end of the string. */
  predicate HostOnly(rest: string) {
    (rest != [] && '/' !in rest)
    || (|rest| >= 2 && rest[|rest| - 1] == '/' && '/' !in rest[..|rest| - 1])
  }

  /** `/^\w+:\/\/[^\/]+\/?$/`: a scheme, `://` and a host with nothing
      after it but an optional slash. A word run cannot contain `:`, so the
      scheme is the whole leading word run. */
  predicate BareHost(url: string) {
    var n := WordEnd(url, 0);
    n > 0 && OccursAt(url, "://", n) && HostOnly(url[n + 3..])
  }

  /** `isValidProductUrl(url)`: none of the six rejecting patterns
      matches; the first five ignore ASCII case. */
  predicate IsValidProductUrl(url: string) {
    var l := Lower(url);
    !Contains(l, "/search")
    && !Contains(l, "keyword=")
    && !Contains(l, "?q=")
    && !EndsWith(l, "/category") && !EndsWith(l, "/category/")
    && !EndsWith(l, "/collections") && !EndsWith(l, "/collections/")
    && !BareHost(url)
  }

  /** A site's home page is never a product page. */
  lemma BareHost_Rejected(scheme: string, host: string, slash: bool)
    requires scheme != [] && forall k :: 0 <= k < |scheme| ==> WordChar(scheme[k])
    requires host != [] && '/' !in host
    ensures !IsValidProductUrl(scheme + "://" + host + (if slash then "/" else ""))
  {
    var url := scheme + "://" + host + (if slash then "/" else "");
    assert WordEnd(url, 0) == |scheme| by {
      WordEnd_Run(url, 0, |scheme|);
    }
    assert url[|scheme|..|scheme| + 3] == "://";
    var rest := url[|scheme| + 3..];
    assert rest == host + (if slash then "/" else "");
    if slash {
      assert rest[..|rest| - 1] == host;
    }
    assert BareHost(url);
  }

  lemma {:induction false} WordEnd_Run(s: string, i: nat, e: nat)
    requires i <= e <= |s|
    requires forall k :: i <= k < e ==> WordChar(s[k])
    requires e == |s| || !WordChar(s[e])
    ensures WordEnd(s, i) == e
    decreases e - i
  {
    if i < e {
      WordEnd_Run(s, i + 1, e);
    }
  }

  /** A search page is never a product page, whatever the case of its
      path. */
  lemma Search_Rejected(before: string, after: string)
    ensures !IsValidProductUrl(before + "/SEARCH" + after)
    ensures !IsValidProductUrl(before + "/search" + after)
  {
    Lower_Concat(before, "/SEARCH");
    Lower_Concat(before + "/SEARCH", after);
    Lower_Concat(before, "/search");
    Lower_Concat(before + "/search", after);
    assert Lower("/SEARCH") == "/search";
    assert Lower("/search") == "/search";
    ContainsSelf("/search");
    ContainsInfix(Lower(before), "/search", Lower(after), "/search");
  }

  // ---------------------------------------------------------- the batch

  /** One line of the progress file's `results`. */
  datatype Entry = Entry(url: string, success: bool, service: Option<string>, error: Option<string>,
                         skipped: bool, scraped: Option<ScrapedData>, plan: Option<PlanRecord>)

  datatype Progress = Progress(lastIndex: int, results: seq<Entry>)

  const Initial := Progress(-1, [])

  /** The line appended for `url`. */
  function EntryFor(url: string, scrape: ScrapeAnswers, ai: AiAnswers): (e: Entry)
    ensures e.url == url
    ensures e.skipped <==> !IsValidProductUrl(url)
    ensures e.success ==> e.plan.Some? && e.service.Some? && e.scraped.Some?
  {
    if !IsValidProductUrl(url) then Entry(url, false, None, Some(SkippedError), true, None, None)
    else
      match ScrapeFrom(url, scrape, 0).0
      case ScrapeFailed(error) => Entry(url, false, None, Some(error), false, None, None)
      case ScrapeOk(service, data) =>
        match AiFrom(url, ai, 1).0
        case AiOk(Some(plan), _) => Entry(url, true, Some(service), None, false, Some(data), Some(plan))
        case AiOk(None, error) => Entry(url, false, None, error, false, Some(data), None)
        case AiGaveUp(reason) => Entry(url, false, None, Some(reason), false, Some(data), None)
  }

  /** Success needs a valid URL, a scrape and a non-null extraction. */
  lemma EntryFor_Success(url: string, scrape: ScrapeAnswers, ai: AiAnswers)
    ensures EntryFor(url, scrape, ai).success <==>
            IsValidProductUrl(url) && ScrapeFrom(url, scrape, 0).0.ScrapeOk?
            && AiFrom(url, ai, 1).0.AiOk? && AiFrom(url, ai, 1).0.data.Some?
    ensures EntryFor(url, scrape, ai).success ==>
            EntryFor(url, scrape, ai).service == Some(ScrapeFrom(url, scrape, 0).0.service)
            && EntryFor(url, scrape, ai).plan == AiFrom(url, ai, 1).0.data
  {
  }

  /** The lines appended for `urls[from..n]`. */
  function NewEntries(urls: seq<string>, scrape: ScrapeAnswers, ai: AiAnswers, from: nat, n: nat): (r: seq<Entry>)
    requires n <= |urls|
    ensures |r| == if n <= from then 0 else n - from
    decreases n
  {
    if n <= from then [] else NewEntries(urls, scrape, ai, from, n - 1) + [EntryFor(urls[n - 1], scrape, ai)]
  }

  /** One line per URL, in URL order. */
  lemma {:induction false} NewEntries_At(urls: seq<string>, scrape: ScrapeAnswers, ai: AiAnswers, from: nat, n: nat, i: nat)
    requires from <= i < n <= |urls|
    ensures NewEntries(urls, scrape, ai, from, n)[i - from] == EntryFor(urls[i], scrape, ai)
    decreases n
  {
    if i < n - 1 {
      NewEntries_At(urls, scrape, ai, from, n - 1, i);
    }
  }

  /** Resuming at `k` after a checkpoint gives the lines of an
      uninterrupted run. */
  lemma {:induction false} NewEntries_Resume(urls: seq<string>, scrape: ScrapeAnswers, ai: AiAnswers, from: nat, k: nat, n: nat)
    requires from <= k <= n <= |urls|
    ensures NewEntries(urls, scrape, ai, from, k) + NewEntries(urls, scrape, ai, k, n) == NewEntries(urls, scrape, ai, from, n)
    decreases n
  {
    if k < n {
      NewEntries_Resume(urls, scrape, ai, from, k, n - 1);
    }
  }

  predicate IsSuccess(e: Entry) { e.success }
  predicate IsFailure(e: Entry) { !e.success }
  predicate IsSkipped(e: Entry) { e.skipped }
  /** A failure the running counter counts: not a skipped URL. */
  predicate IsCountedFailure(e: Entry) { !e.success && !e.skipped }

  /** Every line of a run is a success, a counted failure or a skip. */
  lemma {:induction false} Counts_Partition(es: seq<Entry>)
    requires forall i :: 0 <= i < |es| ==> es[i].skipped ==> !es[i].success
    ensures Count(IsSuccess, es) + Count(IsCountedFailure, es) + Count(IsSkipped, es) == |es|
  {
    if es != [] {
      Counts_Partition(es[1..]);
      assert es == [es[0]] + es[1..];
      Count_Append(IsSuccess, [es[0]], es[1..]);
      Count_Append(IsCountedFailure, [es[0]], es[1..]);
      Count_Append(IsSkipped, [es[0]], es[1..]);
    }
  }

  /** Successes and failures of saved lines add up to the lines. */
  lemma {:induction false} Counts_Saved(es: seq<Entry>)
    ensures Count(IsSuccess, es) + Count(IsFailure, es) == |es|
  {
    if es != [] {
      Counts_Saved(es[1..]);
      assert es == [es[0]] + es[1..];
      Count_Append(IsSuccess, [es[0]], es[1..]);
      Count_Append(IsFailure, [es[0]], es[1..]);
    }
  }

  /** `loadUrls()`: the trimmed lines of the URL file that are neither
      blank nor comments. */
  function LoadUrls(content: string): (r: seq<string>)
    ensures forall i :: 0 <= i < |r| ==> r[i] != "" && !StartsWith(r[i], "#")
  {
    ScrapeQueue.UrlLines(content)
  }

  /** The progress a run starts from: the saved one with `--resume` when
      the progress file exists, otherwise `Initial`. */
  function StartOf(resume: bool, saved: Option<Progress>): Progress {
    if resume && saved.Some? then saved.value else Initial
  }

  /** The index of the first URL a run scrapes. */
  function FromOf(resume: bool, saved: Option<Progress>): nat
    requires saved.Some? ==> saved.value.lastIndex >= -1
  {
    StartOf(resume, saved).lastIndex + 1
  }

  /** `main()`: the progress it starts from (the saved one with `--resume`
      when the progress file exists, otherwise `Initial`), then one line per
      URL from `lastIndex + 1`. The progress file is only ever written with
      an index of a URL, so a saved `lastIndex` is at least -1. */
  method Run(urls: seq<string>, resume: bool, saved: Option<Progress>, scrape: ScrapeAnswers, ai: AiAnswers)
    returns (progress: Progress, successCount: nat, failCount: nat)
    requires saved.Some? ==> saved.value.lastIndex >= -1
    ensures progress.results == StartOf(resume, saved).results + NewEntries(urls, scrape, ai, FromOf(resume, saved), |urls|)
    ensures progress.lastIndex == (if FromOf(resume, saved) < |urls| then |urls| - 1 else StartOf(resume, saved).lastIndex)
    ensures successCount == Count(IsSuccess, progress.results)
    ensures failCount == Count(IsFailure, StartOf(resume, saved).results)
                         + Count(IsCountedFailure, NewEntries(urls, scrape, ai, FromOf(resume, saved), |urls|))
  {
    var start := StartOf(resume, saved);
    var from := FromOf(resume, saved);
    var results, lastIndex;
    results, successCount, failCount, lastIndex := RunFrom(urls, scrape, ai, from, start);
    progress := Progress(lastIndex, results);
  }

  /** The loop of `main()`: one line per URL from `from` on, appended to
      the starting progress, with the running counters. */
  method RunFrom(urls: seq<string>, scrape: ScrapeAnswers, ai: AiAnswers, from: nat, start: Progress)
    returns (results: seq<Entry>, successCount: nat, failCount: nat, lastIndex: int)
    ensures results == start.results + NewEntries(urls, scrape, ai, from, |urls|)
    ensures lastIndex == (if from < |urls| then |urls| - 1 else start.lastIndex)
    ensures successCount == Count(IsSuccess, results)
    ensures failCount == Count(IsFailure, start.results) + Count(IsCountedFailure, NewEntries(urls, scrape, ai, from, |urls|))
  {
    results := start.results;
    successCount := Count(IsSuccess, results);
    failCount := Count(IsFailure, results);
    lastIndex := start.lastIndex;
    if from < |urls| {
      for i := from to |urls|
        invariant results == start.results + NewEntries(urls, scrape, ai, from, i)
        invariant successCount == Count(IsSuccess, results)
        invariant failCount == Count(IsFailure, start.results) + Count(IsCountedFailure, NewEntries(urls, scrape, ai, from, i))
        invariant lastIndex == (if i == from then start.lastIndex else i - 1)
      {
        var entry := Step(urls[i], scrape, ai);
        Run_Step(urls, scrape, ai, from, i, start.results, results);
        results := results + [entry];
        successCount, failCount := CountEntry(entry, successCount, failCount);
        lastIndex := i;
      }
    } else {
      assert NewEntries(urls, scrape, ai, from, |urls|) == [];
      assert Count(IsCountedFailure, []) == 0;
    }
  }

  /** The counters after one line: a success, or a failure that is not a
      skip. */
  method CountEntry(entry: Entry, successCount: nat, failCount: nat) returns (s: nat, f: nat)
    ensures s == successCount + (if entry.success then 1 else 0)
    ensures f == failCount + (if !entry.success && !entry.skipped then 1 else 0)
  {
    s, f := successCount, failCount;
    if entry.success {
      s := s + 1;
    } else if !entry.skipped {
      f := f + 1;
    }
  }

  /** One more URL extends the lines by its line and each counter by one
      when the line is of its kind. */
  lemma Run_Step(urls: seq<string>, scrape: ScrapeAnswers, ai: AiAnswers, from: nat, i: nat, base: seq<Entry>, results: seq<Entry>)
    requires from <= i < |urls|
    requires results == base + NewEntries(urls, scrape, ai, from, i)
    ensures var e := EntryFor(urls[i], scrape, ai);
            results + [e] == base + NewEntries(urls, scrape, ai, from, i + 1)
            && Count(IsSuccess, results + [e]) == Count(IsSuccess, results) + (if e.success then 1 else 0)
            && Count(IsCountedFailure, NewEntries(urls, scrape, ai, from, i + 1))
               == Count(IsCountedFailure, NewEntries(urls, scrape, ai, from, i)) + (if !e.success && !e.skipped then 1 else 0)
  {
    var e := EntryFor(urls[i], scrape, ai);
    Count_Append(IsSuccess, results, [e]);
    Count_Append(IsCountedFailure, NewEntries(urls, scrape, ai, from, i), [e]);
  }

  /** The body of the loop for one URL: the line it appends. */
  method Step(url: string, scrape: ScrapeAnswers, ai: AiAnswers) returns (entry: Entry)
    ensures entry == EntryFor(url, scrape, ai)
  {
    if !IsValidProductUrl(url) {
      return Entry(url, false, None, Some(SkippedError), true, None, None);
    }
    var scraped, _ := ScrapeWithRetry(url, scrape);
    if scraped.ScrapeFailed? {
      return Entry(url, false, None, Some(scraped.error), false, None, None);
    }
    var extracted, _ := AiExtractWithRetry(url, ai);
    if extracted.AiOk? && extracted.data.Some? {
      entry := Entry(url, true, Some(scraped.service), None, false, Some(scraped.data), extracted.data);
    } else {
      var error := if extracted.AiOk? then extracted.error else Some(extracted.reason);
      entry := Entry(url, false, None, error, false, Some(scraped.data), None);
    }
  }
}

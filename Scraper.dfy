/** The text side of the web scraper (src/lib/scraper.ts): which backend a
    fetch goes to, the image links of a Markdown page, the price / servings /
    date / phone hints found in a page, and the truncation of long pages
    before they are sent to a language model. The backends themselves
    (HTTP, a headless browser, Python subprocesses) are outside the model. */
module Scraper {
  import opened Common

  // -------------------------------------------------------------- dispatch

  /** The backend a fetch is handed to. */
  datatype Backend =
    | JinaReader(jinaKey: Option<string>)
    | Firecrawl(firecrawlKey: string)
    | LocalBrowser
    | Crawl4Ai
    | ScrapeGraph

  function BackendService(b: Backend): string {
    match b
    case JinaReader(_) => "jina"
    case Firecrawl(_) => "firecrawl"
    case LocalBrowser => "local"
    case Crawl4Ai => "crawl4ai"
    case ScrapeGraph => "scrapegraph"
  }

  const FirecrawlNeedsKey := "Firecrawl 需要 API Key"

  /** fetchWebpage's switch: the backend for the service name, or the error
      it throws. */
  function FetchDispatch(service: string, jinaKey: Option<string>, firecrawlKey: Option<string>): (r: Result<Backend>)
    ensures r.Ok? ==> BackendService(r.value) == service
    ensures r.Ok? && r.value.Firecrawl? ==> r.value.firecrawlKey != ""
    ensures service == "firecrawl" && !Present(firecrawlKey) ==> r == Err(FirecrawlNeedsKey)
    ensures service !in ["jina", "firecrawl", "local", "crawl4ai", "scrapegraph"] ==> r == Err("不支援的爬取服務: " + service)
    ensures service in ["jina", "local", "crawl4ai", "scrapegraph"] ==> r.Ok?
  {
    if service == "jina" then Ok(JinaReader(jinaKey))
    else if service == "firecrawl" then
      if Present(firecrawlKey) then Ok(Firecrawl(firecrawlKey.value)) else Err(FirecrawlNeedsKey)
    else if service == "local" then Ok(LocalBrowser)
    else if service == "crawl4ai" then Ok(Crawl4Ai)
    else if service == "scrapegraph" then Ok(ScrapeGraph)
    else Err("不支援的爬取服務: " + service)
  }

  /** Every backend is reached from its own service name. */
  lemma FetchDispatch_Backend(b: Backend, jinaKey: Option<string>)
    requires b.Firecrawl? ==> b.firecrawlKey != ""
    ensures FetchDispatch(BackendService(b), if b.JinaReader? then b.jinaKey else jinaKey,
                          if b.Firecrawl? then Some(b.firecrawlKey) else None) == Ok(b)
  {}

  // ------------------------------------------------------- Markdown images

  /** A character of the URL part `[^\s)]`. */
  predicate UrlChar(c: char) {
    !IsSpace(c) && c != ')'
  }

  /** The end of the longest run of URL characters starting at `k`. */
  function RunEnd(s: string, k: nat): (e: nat)
    requires k <= |s|
    ensures k <= e <= |s|
    ensures forall m :: k <= m < e ==> UrlChar(s[m])
    ensures e == |s| || !UrlChar(s[e])
    decreases |s| - k
  {
    if k == |s| || !UrlChar(s[k]) then k else RunEnd(s, k + 1)
  }

  /** The length of an `https?://` scheme at `k`, or 0. */
  function SchemeLen(s: string, k: nat): (n: nat)
    ensures n in {0, 7, 8}
    ensures n == 8 ==> OccursAt(s, "https://", k)
    ensures n == 7 ==> OccursAt(s, "http://", k)
  {
    if OccursAt(s, "https://", k) then 8 else if OccursAt(s, "http://", k) then 7 else 0
  }

  /** `](https?://[^\s)]+)` starts at `j`. */
  predicate TargetAt(s: string, j: nat) {
    OccursAt(s, "](", j)
    && var k := j + 2;
       SchemeLen(s, k) > 0
       && k + SchemeLen(s, k) <= |s|
       && var e := RunEnd(s, k + SchemeLen(s, k));
          e > k + SchemeLen(s, k) && e < |s| && s[e] == ')'
  }

  /** A text occurring at `k` starts every slice from `k` long enough to
      hold it. */
  lemma OccursAt_Slice(s: string, p: string, k: nat, e: nat)
    requires OccursAt(s, p, k) && k + |p| <= e <= |s|
    ensures StartsWith(s[k..e], p)
  {
    assert s[k..e][..|p|] == s[k..k + |p|];
  }

  /** The URL of the link target at `j`. */
  function TargetUrl(s: string, j: nat): (u: string)
    requires TargetAt(s, j)
    ensures StartsWith(u, "http://") || StartsWith(u, "https://")
  {
    var k := j + 2;
    var n := SchemeLen(s, k);
    var e := RunEnd(s, k + n);
    if n == 8 then
      OccursAt_Slice(s, "https://", k, e);
      s[k..e]
    else
      OccursAt_Slice(s, "http://", k, e);
      s[k..e]
  }

  /** The URL holds no white space and no `)`. */
  lemma TargetUrl_Chars(s: string, j: nat)
    requires TargetAt(s, j)
    ensures forall m :: 0 <= m < |TargetUrl(s, j)| ==> UrlChar(TargetUrl(s, j)[m])
  {
    var k := j + 2;
    var n := SchemeLen(s, k);
    var u := TargetUrl(s, j);
    var scheme := if n == 8 then "https://" else "http://";
    assert s[k..k + n] == scheme;
    forall m | 0 <= m < |u| ensures UrlChar(u[m]) {
      assert u[m] == s[k + m];
      if m < n {
        assert s[k + m] == s[k..k + n][m] == scheme[m];
      }
    }
  }

  /** The position just after the closing parenthesis. */
  function TargetEnd(s: string, j: nat): (e: nat)
    requires TargetAt(s, j)
    ensures j < e <= |s|
  {
    RunEnd(s, j + 2 + SchemeLen(s, j + 2)) + 1
  }

  /** The lazy `.*?`: the first link target at or after `j` reached without
      crossing a line break. */
  function FindTarget(s: string, j: nat): (r: Option<nat>)
    ensures r.Some? ==> j <= r.value && TargetAt(s, r.value)
    ensures r.Some? ==> forall m :: j <= m < r.value ==> s[m] != '\n' && !TargetAt(s, m)
    decreases |s| - j
  {
    if j >= |s| then None
    else if TargetAt(s, j) then Some(j)
    else if s[j] == '\n' then None
    else FindTarget(s, j + 1)
  }

  /** The link target of an image `![..](..)` whose `!` is at `i`. */
  function MatchAt(s: string, i: nat): (r: Option<nat>)
    ensures r.Some? ==> i + 2 <= r.value && TargetAt(s, r.value)
  {
    if OccursAt(s, "![", i) then FindTarget(s, i + 2) else None
  }

  /** The global search from `pos`: every image whose `!` lies at or after
      `pos`, each search resuming after the previous match. */
  function ImagesFrom(s: string, pos: nat): (r: seq<string>)
    ensures forall n :: 0 <= n < |r| ==> StartsWith(r[n], "http://") || StartsWith(r[n], "https://")
    decreases |s| - pos
  {
    if pos >= |s| then []
    else match MatchAt(s, pos)
      case Some(j) => [TargetUrl(s, j)] + ImagesFrom(s, TargetEnd(s, j))
      case None => ImagesFrom(s, pos + 1)
  }

  /** No image URL holds white space or a `)`. */
  lemma {:induction false} ImagesFrom_Chars(s: string, pos: nat)
    ensures forall n :: 0 <= n < |ImagesFrom(s, pos)| ==>
      forall m :: 0 <= m < |ImagesFrom(s, pos)[n]| ==> UrlChar(ImagesFrom(s, pos)[n][m])
    decreases |s| - pos
  {
    if pos < |s| {
      match MatchAt(s, pos)
      case Some(j) =>
        TargetUrl_Chars(s, j);
        ImagesFrom_Chars(s, TargetEnd(s, j));
      case None =>
        ImagesFrom_Chars(s, pos + 1);
    }
  }

  /** Text without any `![` has no images. */
  lemma {:induction false} ImagesFrom_NoImageMarker(s: string, pos: nat)
    requires forall i :: pos <= i ==> !OccursAt(s, "![", i)
    ensures ImagesFrom(s, pos) == []
    decreases |s| - pos
  {
    if pos < |s| {
      ImagesFrom_NoImageMarker(s, pos + 1);
    }
  }

  /** A single image link gives its URL. */
  lemma ImagesFrom_Single(alt: string, url: string)
    requires StartsWith(url, "https://") && |url| > 8
    requires forall m :: 0 <= m < |url| ==> UrlChar(url[m])
    requires forall m :: 0 <= m < |alt| ==> alt[m] != '\n' && alt[m] != ']'
    ensures ImagesFrom("![" + alt + "](" + url + ")", 0) == [url]
  {
    var s := "![" + alt + "](" + url + ")";
    var j := 2 + |alt|;
    Single_Target(alt, url);
    forall m | 2 <= m < j ensures s[m] != '\n' && !TargetAt(s, m) {
      assert s[m] == alt[m - 2];
      assert s[m..m + 2][0] == s[m];
    }
    FindTarget_Skip(s, 2, j);
    assert s[0..2] == "![";
    assert MatchAt(s, 0) == Some(j);
  }

  /** The link target of a single image link is its URL, ending the text. */
  lemma Single_Target(alt: string, url: string)
    requires StartsWith(url, "https://") && |url| > 8
    requires forall m :: 0 <= m < |url| ==> UrlChar(url[m])
    ensures var s := "![" + alt + "](" + url + ")";
      TargetAt(s, 2 + |alt|) && TargetUrl(s, 2 + |alt|) == url && TargetEnd(s, 2 + |alt|) == |s|
  {
    var s := "![" + alt + "](" + url + ")";
    var j := 2 + |alt|;
    assert s[j..j + 2] == "](";
    assert s[j + 2..j + 2 + |url|] == url;
    assert OccursAt(s, "https://", j + 2) by {
      assert s[j + 2..j + 10] == url[..8];
    }
    RunEnd_Over(s, j + 10, j + 2 + |url|);
  }

  lemma {:induction false} RunEnd_Over(s: string, k: nat, e: nat)
    requires k <= e < |s| && forall m :: k <= m < e ==> UrlChar(s[m])
    requires !UrlChar(s[e])
    ensures RunEnd(s, k) == e
    decreases e - k
  {
    if k < e {
      RunEnd_Over(s, k + 1, e);
    }
  }

  lemma {:induction false} FindTarget_Skip(s: string, j: nat, t: nat)
    requires j <= t < |s| && TargetAt(s, t)
    requires forall m :: j <= m < t ==> s[m] != '\n' && !TargetAt(s, m)
    ensures FindTarget(s, j) == Some(t)
    decreases t - j
  {
    if j < t {
      FindTarget_Skip(s, j + 1, t);
    }
  }

  /** extractImagesFromMarkdown: the `exec` loop of a global regular
      expression, pushing each match's URL. */
  method ExtractImagesFromMarkdown(markdown: string) returns (images: seq<string>)
    ensures images == ImagesFrom(markdown, 0)
    ensures forall n :: 0 <= n < |images| ==> StartsWith(images[n], "http://") || StartsWith(images[n], "https://")
  {
    images := [];
    var pos := 0;
    while pos < |markdown|
      invariant 0 <= pos <= |markdown|
      invariant images + ImagesFrom(markdown, pos) == ImagesFrom(markdown, 0)
      decreases |markdown| - pos
    {
      match MatchAt(markdown, pos)
      case Some(j) =>
        var url := TargetUrl(markdown, j);
        assert ImagesFrom(markdown, pos) == [url] + ImagesFrom(markdown, TargetEnd(markdown, j));
        assert images + [url] + ImagesFrom(markdown, TargetEnd(markdown, j)) == images + ImagesFrom(markdown, pos);
        images := images + [url];
        pos := TargetEnd(markdown, j);
      case None =>
        assert ImagesFrom(markdown, pos) == ImagesFrom(markdown, pos + 1);
        pos := pos + 1;
    }
  }

  // ----------------------------------------------------------------- hints

  /** What the regular expressions of extractHints match, in pattern order:
      the digit groups of the price patterns (with thousands separators),
      and the whole matches of the servings, date and phone patterns. */
  datatype HintMatches = HintMatches(priceGroups: seq<string>, servingMatches: seq<string>,
                                     dateMatches: seq<string>, phoneMatches: seq<string>)

  datatype Hints = Hints(prices: seq<int>, servings: seq<string>, dates: seq<string>, phones: seq<string>)

  /** `parseInt(group.replace(/,/g, ''), 10)` on a digit group. */
  function PriceOf(group: string): int {
    ParseNat(Filter((c: char) => c != ',', group))
  }

  predicate PriceInRange(p: int) {
    500 <= p <= 50000
  }

  /** The prices in the order the loop first meets them, without repeats. */
  function CollectPrices(groups: seq<string>): (r: seq<int>)
    ensures NoDup(r)
    ensures forall i :: 0 <= i < |r| ==> PriceInRange(r[i])
    ensures forall p :: p in r <==> PriceInRange(p) && exists g :: g in groups && PriceOf(g) == p
  {
    if groups == [] then []
    else
      var init := groups[..|groups| - 1];
      var last := groups[|groups| - 1];
      var r := CollectPrices(init);
      assert forall g :: g in groups <==> g in init || g == last by {
        assert groups == init + [last];
      }
      var p := PriceOf(last);
      if PriceInRange(p) && p !in r then r + [p] else r
  }

  /** The first five of a sorted permutation of distinct prices are the
      five smallest. */
  lemma TopFive(prices: seq<int>, sorted: seq<int>)
    requires NoDup(prices) && SortedInts(sorted) && multiset(sorted) == multiset(prices)
    ensures NoDup(Take(sorted, 5)) && SortedInts(Take(sorted, 5)) && |Take(sorted, 5)| <= 5
    ensures forall i :: 0 <= i < |Take(sorted, 5)| ==> Take(sorted, 5)[i] in prices
    ensures forall p :: p in prices && p !in Take(sorted, 5) ==>
              forall i :: 0 <= i < |Take(sorted, 5)| ==> Take(sorted, 5)[i] < p
    ensures |prices| <= 5 ==> multiset(Take(sorted, 5)) == multiset(prices)
  {
    NoDup_Permutation(prices, sorted);
    var top := Take(sorted, 5);
    assert forall i :: 0 <= i < |top| ==> top[i] == sorted[i];
    forall p | p in prices && p !in top
      ensures forall k :: 0 <= k < |top| ==> top[k] < p
    {
      assert p in multiset(sorted);
      var n :| 0 <= n < |sorted| && sorted[n] == p;
      assert n >= |top|;
    }
    forall k | 0 <= k < |top| ensures top[k] in prices {
      assert sorted[k] in multiset(prices);
    }
    if |prices| <= 5 {
      assert |sorted| == |prices| by {
        assert |multiset(sorted)| == |multiset(prices)|;
      }
      assert top == sorted;
    }
  }

  /** extractHints: the price loop, then sort ascending and keep five; the
      other hints keep their first occurrences, at most 3, 5 and 3. */
  method ExtractHints(m: HintMatches) returns (h: Hints)
    ensures NoDup(h.prices) && SortedInts(h.prices) && |h.prices| <= 5
    ensures forall i :: 0 <= i < |h.prices| ==> h.prices[i] in CollectPrices(m.priceGroups)
    ensures forall p :: p in CollectPrices(m.priceGroups) && p !in h.prices ==>
              forall i :: 0 <= i < |h.prices| ==> h.prices[i] < p
    ensures |CollectPrices(m.priceGroups)| <= 5 ==> multiset(h.prices) == multiset(CollectPrices(m.priceGroups))
    ensures h.servings == Take(Dedup(m.servingMatches), 3)
    ensures h.dates == Take(Dedup(m.dateMatches), 5)
    ensures h.phones == Take(Dedup(m.phoneMatches), 3)
  {
    var prices: seq<int> := [];
    var i := 0;
    while i < |m.priceGroups|
      invariant 0 <= i <= |m.priceGroups|
      invariant prices == CollectPrices(m.priceGroups[..i])
    {
      var price := PriceOf(m.priceGroups[i]);
      assert m.priceGroups[..i + 1][..i] == m.priceGroups[..i];
      if PriceInRange(price) && price !in prices {
        prices := prices + [price];
      }
      i := i + 1;
    }
    assert m.priceGroups[..i] == m.priceGroups;
    var sorted := SortInts(prices);
    TopFive(prices, sorted);
    var top := Take(sorted, 5);
    h := Hints(top, Take(Dedup(m.servingMatches), 3), Take(Dedup(m.dateMatches), 5),
               Take(Dedup(m.phoneMatches), 3));
  }

  /** The hint lists hold no repeats and respect their caps. */
  lemma Hints_Bounded(m: HintMatches)
    ensures NoDup(Take(Dedup(m.servingMatches), 3)) && |Take(Dedup(m.servingMatches), 3)| <= 3
    ensures NoDup(Take(Dedup(m.dateMatches), 5)) && |Take(Dedup(m.dateMatches), 5)| <= 5
    ensures NoDup(Take(Dedup(m.phoneMatches), 3)) && |Take(Dedup(m.phoneMatches), 3)| <= 3
  {
    Take_NoDup(Dedup(m.servingMatches), 3);
    Take_NoDup(Dedup(m.dateMatches), 5);
    Take_NoDup(Dedup(m.phoneMatches), 3);
  }

  // ------------------------------------------------------------ truncation

  const TruncationMarker := "\n\n[內容已截斷...]"

  /** The sentence boundaries the truncation looks for. */
  const SentenceEnds: seq<string> := ["。", "！", "？", "\n\n", ". "]

  /** `Math.max` of the five `lastIndexOf` results: the last position where
      a sentence boundary starts, or -1. */
  function LastSentenceEnd(t: string): (r: int)
    ensures r == -1 || 0 <= r < |t|
    ensures r in {LastIndexOf(t, "。"), LastIndexOf(t, "！"), LastIndexOf(t, "？"), LastIndexOf(t, "\n\n"), LastIndexOf(t, ". ")}
    ensures forall k :: r < k <= |t| - 1 ==> !OccursAt(t, "。", k) && !OccursAt(t, "！", k) && !OccursAt(t, "？", k)
    ensures forall k :: r < k <= |t| - 2 ==> !OccursAt(t, "\n\n", k) && !OccursAt(t, ". ", k)
  {
    var a := LastIndexOf(t, "。");
    var b := LastIndexOf(t, "！");
    var c := LastIndexOf(t, "？");
    var d := LastIndexOf(t, "\n\n");
    var e := LastIndexOf(t, ". ");
    Max(a, Max(b, Max(c, Max(d, e))))
  }

  /** truncateContent: within the limit the text is kept whole; otherwise
      the first `maxLength` characters are cut back to just after the last
      sentence boundary when that boundary lies beyond 70% of the limit,
      and the marker is appended. */
  function TruncateContent(content: string, maxLength: nat): (r: string)
    ensures |content| <= maxLength ==> r == content
    ensures |content| > maxLength ==>
              EndsWith(r, TruncationMarker) && |r| - |TruncationMarker| <= maxLength
              && r == content[..|r| - |TruncationMarker|] + TruncationMarker
    ensures |content| > maxLength && |r| - |TruncationMarker| < maxLength ==>
              var kept := |r| - |TruncationMarker|;
              kept >= 1 && 10 * (kept - 1) > 7 * maxLength
              && kept - 1 == LastSentenceEnd(content[..maxLength])
    ensures |content| > maxLength && 10 * LastSentenceEnd(content[..maxLength]) <= 7 * maxLength ==>
              r == content[..maxLength] + TruncationMarker
  {
    if |content| <= maxLength then content
    else
      var truncated := content[..maxLength];
      var last := LastSentenceEnd(truncated);
      if 10 * last > 7 * maxLength then
        assert 0 <= last < maxLength;
        var kept := truncated[..last + 1];
        assert kept == content[..last + 1];
        var r := kept + TruncationMarker;
        assert |r| - |TruncationMarker| == last + 1;
        assert r[..|r| - |TruncationMarker|] == kept;
        r
      else
        var r := truncated + TruncationMarker;
        assert r[..|r| - |TruncationMarker|] == truncated;
        r
  }

  /** A cut text keeps more than 70% of a positive limit. */
  lemma TruncateContent_KeepsMost(content: string, maxLength: nat)
    requires |content| > maxLength > 0
    ensures 10 * (|TruncateContent(content, maxLength)| - |TruncationMarker|) > 7 * maxLength
  {
    var r := TruncateContent(content, maxLength);
    var last := LastSentenceEnd(content[..maxLength]);
    if 10 * last > 7 * maxLength {
      assert r == content[..last + 1] + TruncationMarker;
    } else {
      assert r == content[..maxLength] + TruncationMarker;
    }
  }

  /** The first character of a sentence boundary. */
  predicate SentenceChar(c: char) {
    c == '。' || c == '！' || c == '？' || c == '\n' || c == '.'
  }

  /** The character at a found sentence boundary. */
  lemma Boundary_Char(t: string, last: int)
    requires 0 <= last < |t| && last == LastSentenceEnd(t)
    ensures SentenceChar(t[last])
  {
    if last == LastIndexOf(t, "。") {
      assert OccursAt(t, "。", last) && t[last..last + 1][0] == t[last];
    } else if last == LastIndexOf(t, "！") {
      assert OccursAt(t, "！", last) && t[last..last + 1][0] == t[last];
    } else if last == LastIndexOf(t, "？") {
      assert OccursAt(t, "？", last) && t[last..last + 1][0] == t[last];
    } else if last == LastIndexOf(t, "\n\n") {
      assert OccursAt(t, "\n\n", last) && t[last..last + 2][0] == t[last];
    } else {
      assert OccursAt(t, ". ", last) && t[last..last + 2][0] == t[last];
    }
  }

  /** A cut that keeps less than the limit ends just after the last
      sentence boundary of the first `maxLength` characters, on the first
      character of that boundary: a full stop, an exclamation or question
      mark, a line break or an ASCII period. */
  lemma TruncateContent_SentenceEnd(content: string, maxLength: nat)
    requires |content| > maxLength
    requires |TruncateContent(content, maxLength)| - |TruncationMarker| != maxLength
    ensures var last := LastSentenceEnd(content[..maxLength]);
            0 <= last < maxLength && |TruncateContent(content, maxLength)| - |TruncationMarker| == last + 1
            && SentenceChar(content[last])
  {
    assert 0 <= LastSentenceEnd(content[..maxLength]);
    Cut_Char(content, maxLength);
  }

  /** The boundary found in the first `maxLength` characters, read in the
      whole text. */
  lemma Cut_Char(content: string, maxLength: nat)
    requires |content| > maxLength && 0 <= LastSentenceEnd(content[..maxLength])
    ensures SentenceChar(content[LastSentenceEnd(content[..maxLength])])
  {
    var t := content[..maxLength];
    var last := LastSentenceEnd(t);
    Boundary_Char(t, last);
    assert content[last] == t[last];
  }
}

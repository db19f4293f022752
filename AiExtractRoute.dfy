/** The extraction pipeline of src/app/api/ai-extract/route.ts: request
    checks, the OCR image filter, merging OCR text into the scraped page,
    and stamping the parsed plans with their source. The page fetch, the
    OCR script, the AI command line tool and its response parser are
    parameters (their results), as is whether the `URL` constructor accepts
    the address. */
module AiExtractRoute {
  import opened Common
  import opened AiPrompt

  const SkipPatterns: seq<string> :=
    ["icon", "logo", "avatar", "emoji", "btn", "button", "arrow", "sprite", "pixel", "1x1"]

  /** An image worth reading: an `http` URL none of whose lower-cased text
      contains a skip pattern. */
  predicate OcrWorthy(url: string) {
    url != "" && StartsWith(url, "http")
    && forall k :: 0 <= k < |SkipPatterns| ==> !Contains(Lower(url), SkipPatterns[k])
  }

  /** The images `processImagesWithOCR` passes to the script. */
  function OcrImages(imageUrls: seq<string>, maxImages: int): (r: seq<string>)
    ensures |r| <= Max(maxImages, 0)
    ensures forall u :: u in r ==> u in imageUrls && OcrWorthy(u)
  {
    var worthy := Filter(OcrWorthy, imageUrls);
    var r := Take(worthy, maxImages);
    forall u | u in r ensures u in imageUrls && OcrWorthy(u) {
      Filter_Mem(OcrWorthy, imageUrls, u);
    }
    r
  }

  /** `processImagesWithOCR(imageUrls, maxImages)`: `available` says whether
      the Python environment exists, and `ocr` gives the combined text of a
      successful run ("" when it fails or finds nothing). */
  function ProcessImagesWithOcr(imageUrls: seq<string>, maxImages: int, available: bool,
                                ocr: seq<string> -> string): (r: string)
    ensures imageUrls == [] || !available || OcrImages(imageUrls, maxImages) == [] ==> r == ""
    ensures r != "" ==> r == ocr(OcrImages(imageUrls, maxImages))
  {
    if imageUrls == [] || !available then ""
    else
      var images := OcrImages(imageUrls, maxImages);
      if images == [] then "" else ocr(images)
  }

  const OcrSeparator := "\n\n---\n\n## 圖片 OCR 識別結果\n\n"

  /** The page text with the OCR text appended after a separator when there
      is any. */
  function CombinedContent(content: string, ocrText: string): (r: string)
    ensures ocrText == "" ==> r == content
    ensures |r| == if ocrText == "" then |content| else |content| + |OcrSeparator| + |ocrText|
    ensures ocrText != "" ==> r[..|content|] == content && r[|r| - |ocrText|..] == ocrText
  {
    if ocrText == "" then content else content + OcrSeparator + ocrText
  }

  /** A parsed plan with the `sourceUrl` the route sets. */
  datatype Extracted = Extracted(plan: ParsedPlan, sourceUrl: string)

  /** What the scraper returned. */
  datatype Page = Page(url: string, title: string, content: string, images: seq<string>)

  datatype Response =
    | Failure(status: int, error: string, raw: Option<string>)
    | Success(page: Page, contentLength: nat, imagesCount: nat, ocrTextLength: nat,
              parsed: seq<Extracted>, count: nat, rawResponse: string)

  /** The request checks in order: a URL, a supported tool, a URL the
      parser accepts, and a key when Firecrawl is asked for. */
  function Validate(url: Option<string>, cli: Option<string>, service: Option<string>, urlParses: bool,
                    firecrawlKey: Option<string>): (r: Option<string>)
    ensures !Present(url) ==> r == Some("請提供 URL")
    ensures r.None? <==>
      (Present(url) && cli.GetOr("claude") in {"claude", "gemini", "gpt"} && urlParses
       && !(service.GetOr("jina") == "firecrawl" && !Present(firecrawlKey)))
  {
    if !Present(url) then Some("請提供 URL")
    else if cli.GetOr("claude") !in {"claude", "gemini", "gpt"} then Some("不支援的 CLI 工具，請選擇 claude, gemini 或 gpt")
    else if !urlParses then Some("無效的 URL 格式")
    else if service.GetOr("jina") == "firecrawl" && !Present(firecrawlKey) then Some("Firecrawl API Key 未設定")
    else None
  }

  /** The loop that sets every parsed item's `sourceUrl` to the request URL. */
  method StampSources(items: seq<ParsedPlan>, url: string) returns (r: seq<Extracted>)
    ensures |r| == |items|
    ensures forall i :: 0 <= i < |r| ==> r[i].plan == items[i] && r[i].sourceUrl == url
  {
    r := [];
    for i := 0 to |items|
      invariant |r| == i
      invariant forall j :: 0 <= j < i ==> r[j].plan == items[j] && r[j].sourceUrl == url
    {
      r := r + [Extracted(items[i], url)];
    }
  }

  /** `POST /api/ai-extract` with the scraped page, the OCR environment and
      run, the AI tool's answer and the plans parsed from it. */
  method Post(url: Option<string>, cli: Option<string>, service: Option<string>, urlParses: bool,
              firecrawlKey: Option<string>, page: Page, ocrAvailable: bool, ocr: seq<string> -> string,
              aiResponse: string, parsed: seq<ParsedPlan>) returns (r: Response)
    ensures Validate(url, cli, service, urlParses, firecrawlKey).Some? ==>
      r == Failure(400, Validate(url, cli, service, urlParses, firecrawlKey).value, None)
    ensures Validate(url, cli, service, urlParses, firecrawlKey).None? && parsed == [] ==>
      r == Failure(422, "無法解析 AI 回應", Some(Take(aiResponse, 2000)))
    ensures r.Success? ==> r.count == |parsed| > 0 && |r.parsed| == |parsed|
    ensures r.Success? ==> forall i :: 0 <= i < |r.parsed| ==> r.parsed[i].plan == parsed[i] && r.parsed[i].sourceUrl == url.value
    ensures r.Success? ==>
      (r.ocrTextLength == |ProcessImagesWithOcr(page.images, 5, ocrAvailable, ocr)| && r.imagesCount == |page.images|)
  {
    var invalid := Validate(url, cli, service, urlParses, firecrawlKey);
    if invalid.Some? {
      return Failure(400, invalid.value, None);
    }
    var ocrText := "";
    if page.images != [] {
      ocrText := ProcessImagesWithOcr(page.images, 5, ocrAvailable, ocr);
    }
    if parsed == [] {
      return Failure(422, "無法解析 AI 回應", Some(Take(aiResponse, 2000)));
    }
    var stamped := StampSources(parsed, url.value);
    r := Success(page, |page.content|, |page.images|, |ocrText|, stamped, |stamped|, aiResponse);
  }

  /** `GET`'s default tool: the first available of claude, gemini, gpt. */
  function DefaultTool(claude: bool, gemini: bool, gpt: bool): (r: Option<string>)
    ensures r.None? <==> !claude && !gemini && !gpt
    ensures r == Some("claude") <==> claude
    ensures r == Some("gemini") <==> !claude && gemini
    ensures r == Some("gpt") <==> !claude && !gemini && gpt
  {
    if claude then Some("claude") else if gemini then Some("gemini") else if gpt then Some("gpt") else None
  }

  /** `GET`'s default scraping service: Firecrawl when its key is set. */
  function DefaultService(firecrawlKey: Option<string>): (r: string)
    ensures r == "firecrawl" <==> Present(firecrawlKey)
    ensures r != "firecrawl" ==> r == "jina"
  {
    if Present(firecrawlKey) then "firecrawl" else "jina"
  }
}

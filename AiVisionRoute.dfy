/** The image-analysis route of src/app/api/ai-vision/route.ts. Whether an
    image downloads, the AI tool's answer and JSON parsing are parameters;
    the temporary directory is left out, so a downloaded file is named by
    its index and extension alone. */
module AiVisionRoute {
  import opened Common
  import opened Json
  import opened AiPrompt

  /** The closing line of the fixed instruction text; the field list above
      it is not part of this model. */
  const BasePrompt := "只回傳 JSON，不要其他解釋文字。"

  const ReferenceHeader := "\n\n---\n以下是網頁文字內容，【僅供參考】，但你的回答必須以圖片中實際看到的內容為主：\n"

  const MaxReferenceText := 2000
  const MaxImages := 10

  /** `generateVisionPrompt(textContent, imageOnly)`. */
  function GenerateVisionPrompt(textContent: Option<string>, imageOnly: bool): (r: string)
    ensures imageOnly || !Present(textContent) ==> r == BasePrompt
    ensures !imageOnly && Present(textContent) ==>
      r == BasePrompt + ReferenceHeader + Take(textContent.value, MaxReferenceText)
    ensures |r| <= |BasePrompt| + |ReferenceHeader| + MaxReferenceText
    ensures r[..|BasePrompt|] == BasePrompt
  {
    if imageOnly || !Present(textContent) then BasePrompt
    else BasePrompt + ReferenceHeader + Take(textContent.value, MaxReferenceText)
  }

  /** The file extension chosen from the lower-cased URL. */
  function Extension(url: string): (r: string)
    ensures r in {".png", ".webp", ".jpg"}
    ensures r == ".png" <==> Contains(Lower(url), ".png")
    ensures r == ".webp" <==> !Contains(Lower(url), ".png") && Contains(Lower(url), ".webp")
  {
    if Contains(Lower(url), ".png") then ".png"
    else if Contains(Lower(url), ".webp") then ".webp"
    else ".jpg"
  }

  /** The file the `i`-th image (from 0) is saved to. */
  function FileName(i: nat, url: string): string {
    "image_" + NatToString(i + 1) + Extension(url)
  }

  /** The files of the first `n` images that download (`ok`), in order. */
  function Downloaded(images: seq<string>, ok: string -> bool, n: nat): (r: seq<string>)
    requires n <= |images|
    ensures |r| <= n
    ensures forall f :: f in r ==> exists i :: 0 <= i < n && ok(images[i]) && f == FileName(i, images[i])
  {
    if n == 0 then []
    else
      var prev := Downloaded(images, ok, n - 1);
      if ok(images[n - 1]) then prev + [FileName(n - 1, images[n - 1])] else prev
  }

  /** Nothing downloads exactly when no inspected image downloads. */
  lemma {:induction false} Downloaded_Empty(images: seq<string>, ok: string -> bool, n: nat)
    requires n <= |images|
    ensures Downloaded(images, ok, n) == [] <==> forall i :: 0 <= i < n ==> !ok(images[i])
  {
    if n > 0 {
      Downloaded_Empty(images, ok, n - 1);
    }
  }

  /** The download loop over the first `min(len, 10)` images. */
  method DownloadAll(images: seq<string>, ok: string -> bool) returns (files: seq<string>)
    ensures files == Downloaded(images, ok, Min(|images|, MaxImages))
    ensures |files| <= MaxImages
  {
    var maxImages := Min(|images|, MaxImages);
    files := [];
    for i := 0 to maxImages
      invariant files == Downloaded(images, ok, i)
    {
      var url := images[i];
      var destPath := FileName(i, url);
      if ok(url) {
        files := files + [destPath];
      }
    }
  }

  datatype Response =
    | Failure(status: int, error: string)
    | Unparsed(rawResponse: string)
    | Success(plan: ParsedPlan, sourceUrl: Option<string>, rawResponse: string, imagesProcessed: nat, cli: string)

  /** `POST /api/ai-vision`: `ai(tool, files, prompt)` is the tool's answer
      and `parse` the JSON parser. */
  method Post(images: Option<seq<string>>, textContent: Option<string>, url: Option<string>, cli: Option<string>,
              imageOnly: Option<bool>, ok: string -> bool, ai: (string, seq<string>, string) -> string,
              parse: string -> Option<Json>) returns (r: Response)
    ensures images.None? || images.value == [] ==> r == Failure(400, "請提供至少一張圖片 URL")
    ensures images.Some? && images.value != [] && Downloaded(images.value, ok, Min(|images.value|, MaxImages)) == [] ==>
      r == Failure(400, "無法下載任何圖片，請檢查圖片 URL 是否有效")
    ensures r.Unparsed? ==> |r.rawResponse| <= 2000
    ensures r.Success? ==> 0 < r.imagesProcessed <= MaxImages && r.cli == cli.GetOr("claude")
    ensures r.Success? ==> r.sourceUrl == if Present(url) then url else None
  {
    if images.None? || images.value == [] {
      return Failure(400, "請提供至少一張圖片 URL");
    }
    var files := DownloadAll(images.value, ok);
    if files == [] {
      return Failure(400, "無法下載任何圖片，請檢查圖片 URL 是否有效");
    }
    var text := if textContent.Some? then Some(Take(textContent.value, 8000)) else None;
    var prompt := GenerateVisionPrompt(text, imageOnly.GetOr(false));
    var tool := if cli.GetOr("claude") == "gemini" then "gemini" else "claude";
    var response := ai(tool, files, prompt);
    var parsed := ParseAIResponse(response, parse);
    if parsed.None? {
      return Unparsed(Take(response, 2000));
    }
    r := Success(parsed.value, if Present(url) then url else None, response, |files|, cli.GetOr("claude"));
  }
}

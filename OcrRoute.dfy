/** The request handling of src/app/api/ocr/route.ts. The OCR script run
    on the chosen URLs is a function parameter returning what the script
    prints; the body is a parsed JSON value. */
module OcrRoute {
  import opened Common
  import opened Json

  /** One recognised image as the script reports it. */
  datatype ImageText = ImageText(url: string, text: string)

  /** The script's answer: its counts, per-image texts and `combined_text`,
      or a failure message. */
  datatype OcrOutput =
    | OcrOk(processed: int, total: int, results: seq<ImageText>, combined_text: string)
    | OcrFailed(error: string)

  /** The route's answer. */
  datatype Response =
    | Failure(status: int, error: string)
    | Success(processed: int, total: int, results: seq<ImageText>, combinedText: string)

  const DefaultMaxImages := 10

  predicate IsHttp(url: string) {
    url != "" && StartsWith(url, "http")
  }

  /** The usable URLs of the request: strings that start with `http`, in
      order. */
  function ValidImages(images: seq<Json>): (r: seq<string>)
    ensures forall u :: u in r <==> JStr(u) in images && IsHttp(u)
  {
    var strs := Strings(images);
    assert forall u :: u in Filter(IsHttp, strs) <==> u in strs && IsHttp(u) by {
      forall u ensures u in Filter(IsHttp, strs) <==> u in strs && IsHttp(u) {
        Filter_Mem(IsHttp, strs, u);
      }
    }
    Filter(IsHttp, strs)
  }

  /** The URLs handed to the OCR script: at most `maxImages` usable ones
      (`slice(0, maxImages)`). */
  function OcrBatch(images: seq<Json>, maxImages: Option<int>): (r: seq<string>)
    ensures maxImages.GetOr(DefaultMaxImages) >= 0 ==> |r| <= maxImages.GetOr(DefaultMaxImages)
    ensures forall u :: u in r ==> IsHttp(u) && JStr(u) in images
  {
    JsSlice(ValidImages(images), 0, maxImages.GetOr(DefaultMaxImages))
  }

  /** `POST /api/ocr`. */
  function Post(body: Json, ocr: seq<string> -> OcrOutput): (r: Response)
    ensures var images := Get(body, "images");
      !(images.Some? && images.value.JArr? && images.value.items != []) ==> r == Failure(400, "請提供圖片 URL 陣列")
    ensures var images := Get(body, "images");
      images.Some? && images.value.JArr? && images.value.items != [] ==>
        (ValidImages(images.value.items) == [] ==> r == Failure(400, "沒有有效的圖片 URL"))
    ensures r.Failure? && r.status != 400 ==> r.status == 500
    ensures r.Success? ==> exists batch :: ocr(batch) == OcrOk(r.processed, r.total, r.results, r.combinedText)
  {
    var images := Get(body, "images");
    if !(images.Some? && images.value.JArr? && images.value.items != []) then
      Failure(400, "請提供圖片 URL 陣列")
    else if ValidImages(images.value.items) == [] then
      Failure(400, "沒有有效的圖片 URL")
    else
      var maxImages := if IsNum(Get(body, "maxImages")) then Some(Get(body, "maxImages").value.n) else None;
      var batch := OcrBatch(images.value.items, maxImages);
      match ocr(batch)
      case OcrFailed(e) => Failure(500, e)
      case OcrOk(p, t, rs, text) => Success(p, t, rs, text)
  }

  /** With usable URLs the script sees exactly the batch, and its answer is
      passed on with `combined_text` renamed, or as a 500 on failure. */
  lemma Post_Delegates(body: Json, ocr: seq<string> -> OcrOutput)
    requires Get(body, "images").Some? && Get(body, "images").value.JArr?
    requires ValidImages(Get(body, "images").value.items) != []
    ensures var maxImages := if IsNum(Get(body, "maxImages")) then Some(Get(body, "maxImages").value.n) else None;
      var out := ocr(OcrBatch(Get(body, "images").value.items, maxImages));
      (out.OcrFailed? ==> Post(body, ocr) == Failure(500, out.error))
      && (out.OcrOk? ==> Post(body, ocr) == Success(out.processed, out.total, out.results, out.combined_text))
  {
    assert Get(body, "images").value.items != [];
  }
}

/** The OCR command of scripts/ocr.py. The OCR engine's answer for an
    image, whether a download succeeds, whether the OCR library is
    installed and the JSON the command line carries are parameters; the
    temporary files are tracked by name. */
module OcrScript {
  import opened Common
  import opened Json

  /** One legacy result line: its length and, when its second element is a
      pair, the text and confidence in it. */
  datatype LegacyLine = LegacyLine(size: nat, textInfo: Option<(string, real)>)

  /** One element of the engine's answer: the current dictionary format,
      the legacy list format, or anything else (ignored). */
  datatype OcrItem =
    | Recognised(recTexts: seq<string>, recScores: seq<real>)
    | Legacy(lines: seq<LegacyLine>)
    | Unrecognised

  /** What `ocr_engine.predict(path)` does: raise, or answer a list. */
  datatype Prediction = Raised | Answered(items: seq<OcrItem>)

  /** The score of the `i`-th text; a missing score counts as 1.0. */
  function ScoreAt(scores: seq<real>, i: nat): real {
    if i < |scores| then scores[i] else 1.0
  }

  /** The kept texts of the first `n` recognised texts: score strictly above
      0.5 and not blank. */
  function KeptRecognised(texts: seq<string>, scores: seq<real>, n: nat): (r: seq<string>)
    requires n <= |texts|
    ensures |r| <= n
  {
    if n == 0 then []
    else
      var prev := KeptRecognised(texts, scores, n - 1);
      if ScoreAt(scores, n - 1) > 0.5 && Trim(texts[n - 1]) != "" then prev + [texts[n - 1]] else prev
  }

  /** Every kept text is one of the first `n`, scored above 0.5 and not
      blank. */
  lemma {:induction false} KeptRecognised_Kept(texts: seq<string>, scores: seq<real>, n: nat, t: string)
    requires n <= |texts| && t in KeptRecognised(texts, scores, n)
    ensures exists i :: 0 <= i < n && texts[i] == t && ScoreAt(scores, i) > 0.5 && Trim(texts[i]) != ""
  {
    var prev := KeptRecognised(texts, scores, n - 1);
    if t in prev {
      KeptRecognised_Kept(texts, scores, n - 1, t);
    }
  }

  /** The kept texts of the first `n` legacy lines: confidence strictly
      above 0.5, with no blank check. */
  function KeptLegacy(lines: seq<LegacyLine>, n: nat): (r: seq<string>)
    requires n <= |lines|
    ensures |r| <= n
  {
    if n == 0 then []
    else
      var prev := KeptLegacy(lines, n - 1);
      var l := lines[n - 1];
      if l.size >= 2 && l.textInfo.Some? && l.textInfo.value.1 > 0.5 then prev + [l.textInfo.value.0] else prev
  }

  function KeptOf(item: OcrItem): seq<string> {
    match item
    case Recognised(texts, scores) => KeptRecognised(texts, scores, |texts|)
    case Legacy(lines) => KeptLegacy(lines, |lines|)
    case Unrecognised => []
  }

  /** The kept texts of the first `n` items, in order. */
  function Fragments(items: seq<OcrItem>, n: nat): seq<string>
    requires n <= |items|
  {
    if n == 0 then [] else Fragments(items, n - 1) + KeptOf(items[n - 1])
  }

  /** The loop over one recognised item. */
  method CollectRecognised(texts: seq<string>, scores: seq<real>) returns (kept: seq<string>)
    ensures kept == KeptRecognised(texts, scores, |texts|)
  {
    kept := [];
    for i := 0 to |texts|
      invariant kept == KeptRecognised(texts, scores, i)
    {
      var score := if i < |scores| then scores[i] else 1.0;
      assert score == ScoreAt(scores, i);
      if score > 0.5 && Trim(texts[i]) != "" {
        kept := kept + [texts[i]];
      }
    }
  }

  /** The loop over one legacy item. */
  method CollectLegacy(lines: seq<LegacyLine>) returns (kept: seq<string>)
    ensures kept == KeptLegacy(lines, |lines|)
  {
    kept := [];
    for i := 0 to |lines|
      invariant kept == KeptLegacy(lines, i)
    {
      var line := lines[i];
      if line.size >= 2 && line.textInfo.Some? {
        var (text, confidence) := line.textInfo.value;
        if confidence > 0.5 {
          kept := kept + [text];
        }
      }
    }
  }

  /** `ocr_image(path, engine)`: the kept texts joined by line feeds; "" for
      an empty answer or when the engine raises. */
  method OcrImage(prediction: Prediction) returns (text: string)
    ensures prediction.Raised? ==> text == ""
    ensures prediction.Answered? ==> text == Join(Fragments(prediction.items, |prediction.items|), "\n")
  {
    if prediction.Raised? || prediction.items == [] {
      return "";
    }
    var items := prediction.items;
    var texts: seq<string> := [];
    for k := 0 to |items|
      invariant texts == Fragments(items, k)
    {
      var kept: seq<string>;
      match items[k] {
        case Recognised(rt, rs) => kept := CollectRecognised(rt, rs);
        case Legacy(lines) => kept := CollectLegacy(lines);
        case Unrecognised => kept := [];
      }
      texts := texts + kept;
    }
    text := Join(texts, "\n");
  }

  // ------------------------------------------------------------ a batch

  const SkipPatterns: seq<string> := ["icon", "logo", "avatar", "emoji", "btn", "button", "arrow"]

  /** A URL `process_images` reads: `http…` with no skip pattern in its
      lower-cased text. */
  predicate Readable(url: string) {
    url != "" && StartsWith(url, "http")
    && forall k :: 0 <= k < |SkipPatterns| ==> !Contains(Lower(url), SkipPatterns[k])
  }

  datatype ImageText = ImageText(url: string, text: string)

  /** `"[圖片 i]\n<text>"` for each result, joined by `"\n\n---\n\n"`. */
  function CombinedText(results: seq<ImageText>): (r: string)
    ensures results == [] ==> r == ""
  {
    Join(seq(|results|, i requires 0 <= i < |results| => "[圖片 " + NatToString(i + 1) + "]\n" + results[i].text), "\n\n---\n\n")
  }

  /** The results for the first `n` inspected URLs: readable ones that
      downloaded and whose text is not blank, with the text trimmed. */
  function Results(urls: seq<string>, n: nat, download: string -> bool, engine: string -> Prediction,
                   text: Prediction -> string): (r: seq<ImageText>)
    requires n <= |urls|
    ensures |r| <= n
    ensures forall x :: x in r ==> x.text != "" && Trim(x.text) == x.text
    ensures forall x :: x in r ==> exists i :: 0 <= i < n && x.url == urls[i] && Readable(urls[i]) && download(urls[i])
  {
    if n == 0 then []
    else
      var prev := Results(urls, n - 1, download, engine, text);
      var url := urls[n - 1];
      if Readable(url) && download(url) && Trim(text(engine(url))) != "" then
        Trim_Idempotent(text(engine(url)));
        Trim_EmptyIffBlank(text(engine(url)));
        prev + [ImageText(url, Trim(text(engine(url))))]
      else prev
  }

  datatype Outcome =
    | Done(processed: nat, total: nat, results: seq<ImageText>, combinedText: string)
    | Failed(error: string)

  const InstallHint := "PaddleOCR 未安裝，請執行: pip install paddlepaddle paddleocr"

  /** The text `ocr_image` gives for a prediction. */
  function ImageTextOf(p: Prediction): string {
    if p.Raised? then "" else Join(Fragments(p.items, |p.items|), "\n")
  }

  /** `process_images(urls, max_images)`. `temps` is the set of temporary
      files left behind, which is always empty. */
  method ProcessImages(urls: seq<string>, maxImages: int, installed: bool, download: string -> bool,
                       engine: string -> Prediction) returns (out: Outcome, temps: set<string>)
    ensures !installed ==> out == Failed(InstallHint)
    ensures installed ==> out.Done?
    ensures out.Done? ==> out.total == |urls| && out.processed == |out.results|
    ensures out.Done? ==> out.results == Results(urls, |Take(urls, maxImages)|, download, engine, ImageTextOf)
    ensures out.Done? ==> out.combinedText == CombinedText(out.results)
    ensures temps == {}
  {
    temps := {};
    if !installed {
      return Failed(InstallHint), temps;
    }
    var batch := Take(urls, maxImages);
    var results: seq<ImageText> := [];
    var processed := 0;
    for i := 0 to |batch|
      invariant results == Results(urls, i, download, engine, ImageTextOf)
      invariant processed == |results| && temps == {}
    {
      var url := batch[i];
      if !Readable(url) {
        continue;
      }
      if !download(url) {
        continue;
      }
      var tempPath := "ocr-" + NatToString(i);
      temps := temps + {tempPath};
      var text := OcrImage(engine(url));
      if Trim(text) != "" {
        Trim_Idempotent(text);
        results := results + [ImageText(url, Trim(text))];
        processed := processed + 1;
      }
      temps := temps - {tempPath};
    }
    out := Done(processed, |urls|, results, CombinedText(results));
  }

  // ---------------------------------------------------------- the command

  /** The command line after the script name, and what the command
      prints with its exit status. */
  datatype Printed = Printed(exitCode: int, out: Outcome)

  const Usage := "Usage: python ocr.py <image_url> | --batch <json_array> | --batch-file <file>"

  /** `main()`: `batchJson` is the parse of a `--batch` argument (`None`
      when it is not JSON, `Some(urls)` for an array of URL strings), and
      `fileUrls` is what a `--batch-file` yields (`Err` with the message
      when the file cannot be read). */
  method RunCommand(args: seq<string>, batchJson: Option<seq<string>>, fileUrls: Result<seq<string>>,
                    installed: bool, download: string -> bool, engine: string -> Prediction) returns (p: Printed)
    ensures args == [] ==> p == Printed(1, Failed(Usage))
    ensures |args| >= 2 && args[0] == "--batch" && batchJson.None? ==> p == Printed(0, Failed("Invalid JSON array"))
    ensures |args| >= 2 && args[0] == "--batch-file" && fileUrls.Err? ==> p == Printed(0, Failed(fileUrls.error))
    ensures args != [] ==> p.exitCode == 0
    ensures !installed && p.out.Done? ==> false
    ensures args != [] && !(|args| >= 2 && args[0] in {"--batch", "--batch-file"}) && p.out.Done? ==>
      p.out.total == 1 && p.out.processed <= 1
  {
    if args == [] {
      return Printed(1, Failed(Usage));
    }
    var out: Outcome;
    var temps: set<string>;
    if args[0] == "--batch" && |args| >= 2 {
      if batchJson.None? {
        out := Failed("Invalid JSON array");
      } else {
        out, temps := ProcessImages(batchJson.value, 20, installed, download, engine);
      }
    } else if args[0] == "--batch-file" && |args| >= 2 {
      if fileUrls.Err? {
        out := Failed(fileUrls.error);
      } else {
        out, temps := ProcessImages(fileUrls.value, 20, installed, download, engine);
      }
    } else {
      out, temps := ProcessImages([args[0]], 1, installed, download, engine);
    }
    p := Printed(0, out);
  }
}

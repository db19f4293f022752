/** Reading a language model's answer into plan fields and building the
    shell command that pipes a prompt into an AI command-line tool
    (src/lib/aiPrompt.ts). `JSON.parse` is a parameter; the two regular
    expressions that locate the JSON text are written out as scans. The
    prompt templates themselves are outside the model. */
module AiPrompt {
  import opened Common
  import opened Json
  import opened Types

  // ------------------------------------------------------ locating the JSON

  const Fence := "```"

  /** The first fence at or after `j`. */
  function NextFence(s: string, j: nat): (r: Option<nat>)
    ensures r.Some? ==> j <= r.value && OccursAt(s, Fence, r.value)
    ensures r.None? ==> forall m :: j <= m ==> !OccursAt(s, Fence, m)
    ensures r.Some? ==> forall m :: j <= m < r.value ==> !OccursAt(s, Fence, m)
    decreases |s| - j
  {
    if j + |Fence| > |s| then None
    else if OccursAt(s, Fence, j) then Some(j)
    else NextFence(s, j + 1)
  }

  /** The end of the run of white space starting at `k` (`\s*`). */
  function SkipSpace(s: string, k: nat): (e: nat)
    requires k <= |s|
    ensures k <= e <= |s| && (e == |s| || !IsSpace(s[e]))
    ensures forall m :: k <= m < e ==> IsSpace(s[m])
    decreases |s| - k
  {
    if k == |s| || !IsSpace(s[k]) then k else SkipSpace(s, k + 1)
  }

  /** ```` ```(?:json)?\s*([\s\S]*?)``` ```` with its opening fence at `i`:
      the body up to the next fence. */
  function CodeBlockAt(s: string, i: nat): (r: Option<string>)
    ensures r.Some? ==> OccursAt(s, Fence, i) && !Contains(r.value, Fence)
  {
    if !OccursAt(s, Fence, i) then None
    else
      var k := i + 3 + (if OccursAt(s, "json", i + 3) then 4 else 0);
      var b := SkipSpace(s, k);
      match NextFence(s, b)
      case None => None
      case Some(c) =>
        var body := s[b..c];
        assert !Contains(body, Fence) by {
          forall m | 0 <= m <= |body| - |Fence| ensures !OccursAt(body, Fence, m) {
            assert body[m..m + |Fence|] == s[b + m..b + m + |Fence|];
            assert !OccursAt(s, Fence, b + m);
          }
        }
        Some(body)
  }

  /** The first code block of the text. */
  function CodeBlockFrom(s: string, i: nat): Option<string>
    decreases |s| - i
  {
    if i >= |s| then None
    else match CodeBlockAt(s, i)
      case Some(body) => Some(body)
      case None => CodeBlockFrom(s, i + 1)
  }

  /** `\{[\s\S]*\}`: from the first `{` to the last `}` after it. */
  function BraceSpan(s: string): (r: Option<string>)
    ensures r.Some? ==> |r.value| >= 2 && r.value[0] == '{' && r.value[|r.value| - 1] == '}'
  {
    if '{' !in s then None
    else
      var i := IndexOf(s, '{');
      var j := LastIndexOf(s, "}");
      if j > i then
        assert OccursAt(s, "}", j);
        assert s[j..j + 1] == "}" && s[j] == '}';
        var span := s[i..j + 1];
        assert span[0] == s[i] == '{';
        assert span[|span| - 1] == s[j];
        Some(span)
      else None
  }

  /** The text handed to `JSON.parse`, before trimming. */
  function JsonText(response: string): string {
    var afterFence := CodeBlockFrom(response, 0).GetOr(response);
    BraceSpan(afterFence).GetOr(afterFence)
  }

  // ------------------------------------------------------- normalisation

  /** The plan fields the parser returns. Fields it copies without checking
      (region, city, address, imageUrl) keep their JSON value. */
  datatype ParsedPlan = ParsedPlan(
    vendorName: string,
    title: string,
    description: Option<string>,
    priceOriginal: Option<int>,
    priceDiscount: int,
    shippingFee: Option<int>,
    shippingType: ShippingType,
    storageType: StorageType,
    servingsMin: int,
    servingsMax: Option<int>,
    orderDeadline: Option<string>,
    fulfillStart: Option<string>,
    fulfillEnd: Option<string>,
    region: Option<Json>,
    city: Option<Json>,
    address: Option<Json>,
    tags: seq<string>,
    dishes: seq<string>,
    imageUrl: Option<Json>
  )

  predicate Digit(c: char) {
    '0' <= c <= '9'
  }

  /** `/^\d{4}-\d{2}-\d{2}$/`: the shape of a date, not its validity. */
  predicate DateShape(s: string) {
    |s| == 10 && s[4] == '-' && s[7] == '-'
    && forall i :: 0 <= i < 10 && i != 4 && i != 7 ==> Digit(s[i])
  }

  /** isValidDate: a string of the date shape. */
  predicate IsValidDate(v: Option<Json>) {
    v.Some? && v.value.JStr? && DateShape(v.value.s)
  }

  function DateField(v: Option<Json>): (r: Option<string>)
    ensures r.Some? ==> DateShape(r.value)
    ensures r.Some? <==> IsValidDate(v)
  {
    if IsValidDate(v) then Some(v.value.s) else None
  }

  /** `String(v || '').trim()`. */
  function TextField(v: Option<Json>): (r: string)
    ensures Trim(r) == r
    ensures !Truthy(v) ==> r == ""
  {
    Trim_Idempotent(if Truthy(v) then ToStr(v.value) else "");
    Trim(if Truthy(v) then ToStr(v.value) else "")
  }

  /** `v || undefined`. */
  function TruthyOr(v: Option<Json>): (r: Option<Json>)
    ensures r.Some? <==> Truthy(v)
  {
    if Truthy(v) then v else None
  }

  function NumField(v: Option<Json>): (r: Option<int>)
    ensures r.Some? <==> IsNum(v)
  {
    if IsNum(v) then Some(v.value.n) else None
  }

  /** The normalisation of a parsed value. */
  function Normalize(v: Json): (r: ParsedPlan)
    ensures r.shippingType in {Delivery, Pickup}
    ensures r.storageType in {Frozen, RoomTemp}
    ensures Trim(r.vendorName) == r.vendorName && Trim(r.title) == r.title
    ensures !IsNum(Get(v, "priceDiscount")) ==> r.priceDiscount == 0
    ensures !IsNum(Get(v, "servingsMin")) ==> r.servingsMin == 4
    ensures r.orderDeadline.Some? ==> DateShape(r.orderDeadline.value)
    ensures r.fulfillStart.Some? ==> DateShape(r.fulfillStart.value)
    ensures r.fulfillEnd.Some? ==> DateShape(r.fulfillEnd.value)
    ensures forall t :: t in r.tags ==> Get(v, "tags").Some? && Get(v, "tags").value.JArr? && JStr(t) in Get(v, "tags").value.items
    ensures forall d :: d in r.dishes ==> Get(v, "dishes").Some? && Get(v, "dishes").value.JArr? && JStr(d) in Get(v, "dishes").value.items
  {
    var shipping := Get(v, "shippingType");
    var storage := Get(v, "storageType");
    var description := Get(v, "description");
    ParsedPlan(
      TextField(Get(v, "vendorName")),
      TextField(Get(v, "title")),
      if Truthy(description) then Some(Trim(ToStr(description.value))) else None,
      NumField(Get(v, "priceOriginal")),
      NumOr(Get(v, "priceDiscount"), 0),
      NumField(Get(v, "shippingFee")),
      if shipping == Some(JStr("pickup")) then Pickup else Delivery,
      if storage == Some(JStr("room_temp")) then RoomTemp else Frozen,
      NumOr(Get(v, "servingsMin"), 4),
      NumField(Get(v, "servingsMax")),
      DateField(Get(v, "orderDeadline")),
      DateField(Get(v, "fulfillStart")),
      DateField(Get(v, "fulfillEnd")),
      TruthyOr(Get(v, "region")),
      TruthyOr(Get(v, "city")),
      TruthyOr(Get(v, "address")),
      StringArray(Get(v, "tags")),
      StringArray(Get(v, "dishes")),
      TruthyOr(Get(v, "imageUrl")))
  }

  /** parseAIResponse: `null` when the text does not parse, or parses to
      `null` (whose fields cannot be read); otherwise the normalised plan. */
  function ParseAIResponse(response: string, parse: string -> Option<Json>): (r: Option<ParsedPlan>)
    ensures parse(Trim(JsonText(response))).None? ==> r.None?
    ensures parse(Trim(JsonText(response))) == Some(JNull) ==> r.None?
    ensures r.Some? ==> r.value == Normalize(parse(Trim(JsonText(response))).value)
  {
    match parse(Trim(JsonText(response)))
    case None => None
    case Some(JNull) => None
    case Some(v) => Some(Normalize(v))
  }

  /** A shipping or storage value outside the two accepted ones falls back
      to delivery and frozen; the accepted ones are kept. */
  lemma Normalize_Choices(v: Json)
    ensures Get(v, "shippingType") == Some(JStr("pickup")) <==> Normalize(v).shippingType == Pickup
    ensures Get(v, "storageType") == Some(JStr("room_temp")) <==> Normalize(v).storageType == RoomTemp
    ensures Get(v, "shippingType") == Some(JStr("both")) ==> Normalize(v).shippingType == Delivery
  {}

  /** The date check looks at the shape only: an impossible calendar date
      passes and a short one does not. */
  lemma IsValidDate_ShapeOnly()
    ensures IsValidDate(Some(JStr("2026-13-45")))
    ensures !IsValidDate(Some(JStr("2026-1-5")))
  {
    var bad := "2026-13-45";
    assert forall i :: 0 <= i < 10 && i != 4 && i != 7 ==> Digit(bad[i]);
  }

  // ----------------------------------------------------- shell quoting

  /** `prompt.replace(/'/g, "'\\''")`. */
  function EscapeSingleQuotes(p: string): (r: string)
    ensures |r| >= |p|
  {
    if p == [] then []
    else (if p[0] == '\'' then "'\\''" else [p[0]]) + EscapeSingleQuotes(p[1..])
  }

  /** POSIX shell word reading: outside quotes a backslash quotes the next
      character and `'` opens a literal run. */
  function ShellWord(s: string): (r: Option<string>)
    decreases |s|, 1
  {
    if s == [] then Some([])
    else if s[0] == '\'' then InQuotes(s[1..])
    else if s[0] == '\\' && |s| >= 2 then
      match ShellWord(s[2..])
      case None => None
      case Some(w) => Some([s[1]] + w)
    else
      match ShellWord(s[1..])
      case None => None
      case Some(w) => Some([s[0]] + w)
  }

  /** Inside single quotes every character is literal up to the next `'`. */
  function InQuotes(s: string): (r: Option<string>)
    decreases |s|, 0
  {
    if s == [] then None
    else if s[0] == '\'' then ShellWord(s[1..])
    else
      match InQuotes(s[1..])
      case None => None
      case Some(w) => Some([s[0]] + w)
  }

  /** The quoted text reads back as the prompt. */
  lemma {:induction false} InQuotes_Escape(p: string)
    ensures InQuotes(EscapeSingleQuotes(p) + "'") == Some(p)
  {
    var s := EscapeSingleQuotes(p) + "'";
    if p == [] {
      assert s == "'";
    } else if p[0] == '\'' {
      InQuotes_Escape(p[1..]);
      var t := EscapeSingleQuotes(p[1..]) + "'";
      assert s == "'\\''" + t;
      var u := "\\''" + t;
      assert s[1..] == u;
      assert InQuotes(s) == ShellWord(u);
      assert u[2..] == "'" + t;
      assert ("'" + t)[1..] == t;
      assert ShellWord("'" + t) == InQuotes(t) == Some(p[1..]);
      assert ShellWord(u) == Some([u[1]] + p[1..]);
      assert [p[0]] + p[1..] == p;
    } else {
      InQuotes_Escape(p[1..]);
      assert s == [p[0]] + (EscapeSingleQuotes(p[1..]) + "'");
      assert [p[0]] + p[1..] == p;
    }
  }

  /** The single-quoted argument of the command reads back as the prompt. */
  lemma ShellWord_Quoted(p: string)
    ensures ShellWord("'" + EscapeSingleQuotes(p) + "'") == Some(p)
  {
    InQuotes_Escape(p);
    assert ("'" + EscapeSingleQuotes(p) + "'")[1..] == EscapeSingleQuotes(p) + "'";
  }

  /** generateCLICommand: `echo '<prompt>' | <tool>` for the three known
      tools, and a comment followed by the raw prompt for any other. */
  function GenerateCLICommand(prompt: string, tool: string): (r: string)
    ensures tool in ["claude", "gemini", "gpt"] ==>
              r == "echo " + ("'" + EscapeSingleQuotes(prompt) + "'") + " | " + tool
              && ShellWord("'" + EscapeSingleQuotes(prompt) + "'") == Some(prompt)
    ensures tool !in ["claude", "gemini", "gpt"] ==> r == "# 請將以下內容貼到你的 AI CLI:\n" + prompt
  {
    ShellWord_Quoted(prompt);
    assert "echo " + ("'" + EscapeSingleQuotes(prompt) + "'") + " | " + tool == "echo '" + EscapeSingleQuotes(prompt) + "' | " + tool;
    if tool in ["claude", "gemini", "gpt"] then
      "echo '" + EscapeSingleQuotes(prompt) + "' | " + tool
    else "# 請將以下內容貼到你的 AI CLI:\n" + prompt
  }
}

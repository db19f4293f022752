/** The review moderation of src/lib/contentModeration.ts: a score built
    from pattern groups, a length penalty and optional strict checks, the
    suggestion thresholds 20 and 50, the summary text and the batch
    statistics. The pattern engine is the abstract `Matcher`. */
module ContentModeration {
  import opened Common
  import opened Regex

  datatype FlagType = Spam | Profanity | Advertisement | Link | Repetitive | LowQuality | SuspiciousPattern | FakeReview
  datatype Severity = Low | Medium | High
  datatype Flag = Flag(kind: FlagType, severity: Severity, message: string, matchedText: Option<string>)
  datatype Suggestion = Approve | ReviewIt | Reject

  datatype ModerationResult = ModerationResult(
    isClean: bool, score: int, flags: seq<Flag>, suggestion: Suggestion, details: seq<string>)

  /** The optional settings; an absent one takes its default. */
  datatype Options = Options(checkLinks: Option<bool>, checkProfanity: Option<bool>, strictMode: Option<bool>)

  const NoOptions := Options(None, None, None)

  const SpamPatternsEn: seq<string> := [
    "/viagra|cialis|casino|lottery|poker/gi",
    "/\\b(click here|buy now|limited offer|act now|free money)\\b/gi",
    "/\\b(make money|work from home|earn cash)\\b/gi",
    "/\\b(winner|congratulations|you have been selected)\\b/gi"
  ]
  const SpamPatternsZh: seq<string> := [
    "/代購|代理|兼職|日賺|月入/g", "/加(我|賴|LINE|微信|QQ)/gi", "/私訊|私聊|詳情請/g",
    "/優惠碼|折扣碼|免費領/g", "/刷單|好評返現|返利/g"
  ]
  const AdPatterns: seq<string> := [
    "/(http|https|www\\.|\\.com|\\.tw|\\.cn)/gi", "/\\b\\d{10,}\\b/g", "/@\\w+\\.(com|tw|cn|net)/gi",
    "/LINE\\s*[:：]?\\s*\\w+/gi", "/微信\\s*[:：]?\\s*\\w+/gi"
  ]
  const ProfanityPatterns: seq<string> := ["/幹你|操你|去死|白癡|智障|廢物/g", "/fuck|shit|damn|ass|bitch/gi"]
  const FakeReviewPatterns: seq<string> := ["/五星好評|必買|超級推薦|無敵好吃/g", "/回購\\d+次|買了\\d+組/g", "/比\\w+還好|市面上最好/g"]

  /** One group of patterns and what a hit on one of them costs and reports. */
  datatype Group = Group(patterns: seq<string>, weight: nat, kind: FlagType, severity: Severity,
                         message: string, hidden: bool, prefix: string)

  const SpamEn := Group(SpamPatternsEn, 15, Spam, High, "檢測到可疑的垃圾詞彙", false, "垃圾詞彙: ")
  const SpamZh := Group(SpamPatternsZh, 12, Spam, Medium, "檢測到可能的推銷內容", false, "推銷詞彙: ")
  const Ads := Group(AdPatterns, 10, Advertisement, Medium, "包含連結或聯繫方式", false, "廣告連結: ")
  const Profane := Group(ProfanityPatterns, 20, Profanity, High, "包含不當用語", true, "")
  const Fake := Group(FakeReviewPatterns, 8, FakeReview, Low, "可能是刷評或過度誇張", false, "可疑用語: ")

  /** The score of the first `n` patterns of a group. */
  function GroupScore(g: Group, m: Matcher, text: string, n: nat): nat
    requires n <= |g.patterns|
  {
    if n == 0 then 0 else GroupScore(g, m, text, n - 1) + g.weight * |m(g.patterns[n - 1], text)|
  }

  /** How many of the first `n` patterns of a group match at all. */
  function GroupHits(g: Group, m: Matcher, text: string, n: nat): nat
    requires n <= |g.patterns|
  {
    if n == 0 then 0 else GroupHits(g, m, text, n - 1) + (if |m(g.patterns[n - 1], text)| > 0 then 1 else 0)
  }

  /** The flag and detail line a matching pattern adds. */
  function GroupFlag(g: Group, matches: seq<string>): Flag {
    Flag(g.kind, g.severity, g.message, Some(if g.hidden then "[已隱藏]" else Join(Take(matches, 3), ", ")))
  }

  function GroupDetail(g: Group, matches: seq<string>): string {
    if g.hidden then "檢測到不當用語" else g.prefix + Join(matches, ", ")
  }

  /** The score of a whole group. */
  function Total(g: Group, m: Matcher, text: string): nat {
    GroupScore(g, m, text, |g.patterns|)
  }

  /** Runs one group's pattern loop: the score it adds, and one flag and
      one detail line per matching pattern. */
  method ScanGroup(g: Group, m: Matcher, text: string) returns (score: nat, flags: seq<Flag>, details: seq<string>)
    ensures score == Total(g, m, text)
    ensures |flags| == |details| == GroupHits(g, m, text, |g.patterns|)
    ensures forall k :: 0 <= k < |flags| ==> flags[k].kind == g.kind && flags[k].severity == g.severity
  {
    score, flags, details := 0, [], [];
    for i := 0 to |g.patterns|
      invariant score == GroupScore(g, m, text, i)
      invariant |flags| == |details| == GroupHits(g, m, text, i)
      invariant forall k :: 0 <= k < |flags| ==> flags[k].kind == g.kind && flags[k].severity == g.severity
    {
      var matches := m(g.patterns[i], text);
      if |matches| > 0 {
        score := score + g.weight * |matches|;
        flags := flags + [GroupFlag(g, matches)];
        details := details + [GroupDetail(g, matches)];
      }
    }
  }

  predicate EmojiChar(c: char) {
    IsSpace(c) || '\U{1F300}' <= c <= '\U{1F9FF}' || '\U{2600}' <= c <= '\U{26FF}' || '\U{2700}' <= c <= '\U{27BF}'
  }

  predicate PunctuationChar(c: char) {
    c in "！!？?。，,、；;：:\"'「」【】（）()"
  }

  /** `/^[…]+$/.test(content)` for a character class. */
  predicate OnlyOf(f: char -> bool, s: string) {
    |s| > 0 && forall i :: 0 <= i < |s| ==> f(s[i])
  }

  predicate ManyCapitals(text: string) {
    UpperCount(text) as real / Max(|text|, 1) as real > 0.5 && |text| > 10
  }

  function LengthPenalty(content: string): nat {
    if |content| < 10 then 15 else if |content| < 20 then 5 else 0
  }

  function StrictPenalty(content: string): nat {
    (if OnlyOf(EmojiChar, content) then 20 else 0) + (if OnlyOf(PunctuationChar, content) then 25 else 0)
  }

  /** The score of the five pattern groups (steps 1 to 5). */
  function PatternScore(m: Matcher, text: string, checkLinks: bool, checkProfanity: bool): nat {
    Total(SpamEn, m, text) + Total(SpamZh, m, text)
    + (if checkLinks then Total(Ads, m, text) else 0)
    + (if checkProfanity then Total(Profane, m, text) else 0)
    + Total(Fake, m, text)
  }

  /** The score of the shape checks (steps 6 to 9). */
  function ShapeScore(text: string, content: string, strictMode: bool): nat {
    5 * RepeatCount(text, 0)
    + (if ManyCapitals(text) then 10 else 0)
    + LengthPenalty(content)
    + (if strictMode then StrictPenalty(content) else 0)
  }

  /** The score before it is capped at 100. */
  function RawScore(m: Matcher, title: string, content: string, o: Options): nat {
    var text := title + " " + content;
    PatternScore(m, text, o.checkLinks.GetOr(true), o.checkProfanity.GetOr(true))
    + ShapeScore(text, content, o.strictMode.GetOr(false))
  }

  /** The suggestion for a raw score. */
  function SuggestionFor(score: int): (s: Suggestion)
    ensures s == Reject <==> score >= 50
    ensures s == ReviewIt <==> 20 <= score < 50
    ensures s == Approve <==> score < 20
  {
    if score >= 50 then Reject else if score >= 20 then ReviewIt else Approve
  }

  /** Steps 1 to 5 of `moderateContent`. */
  method PatternPhase(m: Matcher, text: string, checkLinks: bool, checkProfanity: bool)
    returns (score: nat, flags: seq<Flag>, details: seq<string>)
    ensures score == PatternScore(m, text, checkLinks, checkProfanity)
    ensures |flags| == |details|
  {
    var s, f, d := ScanGroup(SpamEn, m, text);
    score, flags, details := s, f, d;
    s, f, d := ScanGroup(SpamZh, m, text);
    score, flags, details := score + s, flags + f, details + d;
    if checkLinks {
      s, f, d := ScanGroup(Ads, m, text);
      score, flags, details := score + s, flags + f, details + d;
    }
    if checkProfanity {
      s, f, d := ScanGroup(Profane, m, text);
      score, flags, details := score + s, flags + f, details + d;
    }
    s, f, d := ScanGroup(Fake, m, text);
    score, flags, details := score + s, flags + f, details + d;
  }

  /** Steps 6 to 9 of `moderateContent`. */
  method ShapePhase(text: string, content: string, strictMode: bool)
    returns (score: nat, flags: seq<Flag>, details: seq<string>)
    ensures score == ShapeScore(text, content, strictMode)
    ensures |flags| == |details|
  {
    score, flags, details := 0, [], [];
    var repeats := RepeatMatches(text, 0);
    if |repeats| > 0 {
      score := score + 5 * |repeats|;
      flags := flags + [Flag(Repetitive, Low, "包含過多重複字符", Some(Join(Take(repeats, 3), ", ")))];
      details := details + ["檢測到重複字符"];
    }
    if ManyCapitals(text) {
      score := score + 10;
      flags := flags + [Flag(SuspiciousPattern, Low, "過多大寫字母", None)];
      details := details + ["過多大寫字母"];
    }
    if |content| < 10 {
      score := score + 15;
      flags := flags + [Flag(LowQuality, Medium, "內容過短", None)];
      details := details + ["內容過短（少於 10 字）"];
    } else if |content| < 20 {
      score := score + 5;
      flags := flags + [Flag(LowQuality, Low, "內容較短", None)];
      details := details + ["內容較短（少於 20 字）"];
    }
    if strictMode {
      if OnlyOf(EmojiChar, content) {
        score := score + 20;
        flags := flags + [Flag(LowQuality, Medium, "內容僅包含表情符號", None)];
        details := details + ["內容僅包含表情符號"];
      }
      if OnlyOf(PunctuationChar, content) {
        score := score + 25;
        flags := flags + [Flag(LowQuality, High, "內容僅包含標點符號", None)];
        details := details + ["內容僅包含標點符號"];
      }
    }
  }

  /** `moderateContent(title, content, options)`. */
  method ModerateContent(m: Matcher, title: string, content: string, o: Options) returns (r: ModerationResult)
    ensures r.score == Min(RawScore(m, title, content, o), 100)
    ensures r.suggestion == SuggestionFor(RawScore(m, title, content, o))
    ensures r.isClean <==> r.suggestion == Approve
    ensures 0 <= r.score <= 100
    ensures |r.flags| == |r.details|
  {
    var text := title + " " + content;
    var checkLinks := o.checkLinks.GetOr(true);
    var checkProfanity := o.checkProfanity.GetOr(true);
    var strictMode := o.strictMode.GetOr(false);
    var s1, f1, d1 := PatternPhase(m, text, checkLinks, checkProfanity);
    var s2, f2, d2 := ShapePhase(text, content, strictMode);
    var score := s1 + s2;
    var suggestion := if score >= 50 then Reject else if score >= 20 then ReviewIt else Approve;
    r := ModerationResult(score < 20, Min(score, 100), f1 + f2, suggestion, d1 + d2);
  }

  /** A body under 10 characters costs 15, one of 10 to 19 costs 5; the
      rest of the score does not depend on the body's length. */
  lemma RawScore_Length(m: Matcher, title: string, content: string, o: Options)
    ensures LengthPenalty(content) == (if |content| < 10 then 15 else if |content| < 20 then 5 else 0)
    ensures |content| < 10 ==> RawScore(m, title, content, o) >= 15
    ensures 10 <= |content| < 20 ==> RawScore(m, title, content, o) >= 5
  {}

  /** The strict checks add only in strict mode, and the link and
      profanity groups count unless switched off. */
  lemma RawScore_Options(m: Matcher, title: string, content: string, l: Option<bool>, p: Option<bool>)
    ensures RawScore(m, title, content, Options(l, p, Some(true)))
         == RawScore(m, title, content, Options(l, p, Some(false))) + StrictPenalty(content)
    ensures RawScore(m, title, content, Options(l, p, None)) == RawScore(m, title, content, Options(l, p, Some(false)))
    ensures RawScore(m, title, content, NoOptions) == RawScore(m, title, content, Options(Some(true), Some(true), Some(false)))
  {}

  /** A text of only punctuation in strict mode is never approved. */
  lemma Strict_PunctuationReviewed(m: Matcher, title: string, content: string, l: Option<bool>, p: Option<bool>)
    requires OnlyOf(PunctuationChar, content)
    ensures SuggestionFor(RawScore(m, title, content, Options(l, p, Some(true)))) != Approve
  {}

  /** `needsModeration(title, content)`: the default options, and anything
      but an approval. */
  method NeedsModeration(m: Matcher, title: string, content: string) returns (b: bool)
    ensures b <==> RawScore(m, title, content, NoOptions) >= 20
  {
    var r := ModerateContent(m, title, content, NoOptions);
    b := r.suggestion != Approve;
  }

  /** One entry of a batch review. */
  datatype Item = Item(id: string, title: string, content: string)

  /** The position of the last item with this id, or -1. */
  function LastIndex(items: seq<Item>, id: string): (k: int)
    ensures -1 <= k < |items|
    ensures k >= 0 ==> items[k].id == id && forall j :: k < j < |items| ==> items[j].id != id
    ensures k == -1 ==> forall j :: 0 <= j < |items| ==> items[j].id != id
  {
    if items == [] then -1
    else if items[|items| - 1].id == id then |items| - 1
    else LastIndex(items[..|items| - 1], id)
  }

  /** A result is the default-options moderation of an item. */
  predicate ModeratedAs(r: ModerationResult, m: Matcher, it: Item) {
    var raw := RawScore(m, it.title, it.content, NoOptions);
    r.score == Min(raw, 100) && r.suggestion == SuggestionFor(raw) && (r.isClean <==> r.suggestion == Approve)
  }

  /** `moderateMultiple(items)`: one result per id, and for an id that
      occurs twice the later item's result replaces the earlier one. */
  method ModerateMultiple(m: Matcher, items: seq<Item>) returns (results: map<string, ModerationResult>)
    ensures forall id :: id in results <==> LastIndex(items, id) >= 0
    ensures forall id :: id in results ==> ModeratedAs(results[id], m, items[LastIndex(items, id)])
  {
    results := map[];
    var i := 0;
    while i < |items|
      invariant 0 <= i <= |items|
      invariant forall id :: id in results <==> LastIndex(items[..i], id) >= 0
      invariant forall id :: id in results ==> ModeratedAs(results[id], m, items[LastIndex(items[..i], id)])
    {
      var r := ModerateContent(m, items[i].title, items[i].content, NoOptions);
      assert items[..i + 1][..i] == items[..i];
      results := results[items[i].id := r];
      i := i + 1;
    }
    assert items[..i] == items;
  }

  /** The number of flags of one severity. */
  function SeverityCount(fs: seq<Flag>, v: Severity): nat {
    Count((f: Flag) => f.severity == v, fs)
  }

  /** `getModerationSummary(result)`: a pass for a clean result; otherwise
      a rejection advice exactly when some flag is of high severity, a
      manual-review advice exactly when none is high but some is medium,
      and a plain count of minor problems when all are low. */
  function ModerationSummary(r: ModerationResult): (s: string)
    ensures r.isClean ==> s == "內容檢查通過"
    ensures EndsWith(s, "，建議拒絕") <==> !r.isClean && SeverityCount(r.flags, High) > 0
    ensures EndsWith(s, "，建議人工審核") <==>
              !r.isClean && SeverityCount(r.flags, High) == 0 && SeverityCount(r.flags, Medium) > 0
    ensures EndsWith(s, " 個輕微問題") <==>
              !r.isClean && SeverityCount(r.flags, High) == 0 && SeverityCount(r.flags, Medium) == 0
  {
    if r.isClean then "內容檢查通過"
    else
      var high := SeverityCount(r.flags, High);
      var medium := SeverityCount(r.flags, Medium);
      if high > 0 then
        var t := "發現 " + NatToString(high) + " 個嚴重問題，建議拒絕";
        Summary_Ending(t, "發現 " + NatToString(high) + " 個嚴重問題", "，建議拒絕");
        t
      else if medium > 0 then
        var t := "發現 " + NatToString(medium) + " 個中等問題，建議人工審核";
        Summary_Ending(t, "發現 " + NatToString(medium) + " 個中等問題", "，建議人工審核");
        t
      else
        var t := "發現 " + NatToString(|r.flags|) + " 個輕微問題";
        Summary_Ending(t, "發現 " + NatToString(|r.flags|), " 個輕微問題");
        t
  }

  /** Which of the three endings a summary text carries is decided by its
      last character. */
  lemma Summary_Ending(t: string, head: string, tail: string)
    requires t == head + tail
    requires tail == "，建議拒絕" || tail == "，建議人工審核" || tail == " 個輕微問題"
    ensures EndsWith(t, "，建議拒絕") <==> tail == "，建議拒絕"
    ensures EndsWith(t, "，建議人工審核") <==> tail == "，建議人工審核"
    ensures EndsWith(t, " 個輕微問題") <==> tail == " 個輕微問題"
  {
    assert t[|t| - |tail|..] == tail;
    assert t[|t| - 1] == tail[|tail| - 1];
  }

  // ----------------------------------------------------------- statistics

  datatype ModerationStats = ModerationStats(total: nat, clean: nat, needsReview: nat, rejected: nat,
                                             flagTypes: map<FlagType, nat>)

  /** The `flagTypes` record with every kind at zero. */
  const NoFlags: map<FlagType, nat> := map[Spam := 0, Profanity := 0, Advertisement := 0, Link := 0,
    Repetitive := 0, LowQuality := 0, SuspiciousPattern := 0, FakeReview := 0]

  predicate AllKinds(t: map<FlagType, nat>) {
    forall k: FlagType :: k in t
  }

  /** The eight counts added up. */
  function SumKinds(t: map<FlagType, nat>): nat
    requires AllKinds(t)
  {
    t[Spam] + t[Profanity] + t[Advertisement] + t[Link] + t[Repetitive] + t[LowQuality]
    + t[SuspiciousPattern] + t[FakeReview]
  }

  /** `stats.flagTypes[flag.type]++` for each flag of a list. */
  function Tally(t: map<FlagType, nat>, fs: seq<Flag>): (u: map<FlagType, nat>)
    requires AllKinds(t)
    ensures AllKinds(u)
  {
    if fs == [] then t
    else
      var t' := Tally(t, fs[..|fs| - 1]);
      var k := fs[|fs| - 1].kind;
      t'[k := t'[k] + 1]
  }

  /** The same over the flags of every result. */
  function TallyAll(rs: seq<ModerationResult>): (u: map<FlagType, nat>)
    ensures AllKinds(u)
  {
    if rs == [] then NoFlags_AllKinds(); NoFlags else Tally(TallyAll(rs[..|rs| - 1]), rs[|rs| - 1].flags)
  }

  lemma NoFlags_AllKinds()
    ensures AllKinds(NoFlags) && SumKinds(NoFlags) == 0
  {
    forall k: FlagType ensures k in NoFlags {
      match k
      case Spam => case Profanity => case Advertisement => case Link =>
      case Repetitive => case LowQuality => case SuspiciousPattern => case FakeReview =>
    }
  }

  /** Adding one to any kind adds one to the total. */
  lemma Bump_Sum(t: map<FlagType, nat>, k: FlagType)
    requires AllKinds(t)
    ensures AllKinds(t[k := t[k] + 1]) && SumKinds(t[k := t[k] + 1]) == SumKinds(t) + 1
  {
    match k
    case Spam => case Profanity => case Advertisement => case Link =>
    case Repetitive => case LowQuality => case SuspiciousPattern => case FakeReview =>
  }

  function FlagCount(rs: seq<ModerationResult>): nat {
    if rs == [] then 0 else FlagCount(rs[..|rs| - 1]) + |rs[|rs| - 1].flags|
  }

  /** Every tallied flag adds one to the total. */
  lemma {:induction false} Tally_Sum(t: map<FlagType, nat>, fs: seq<Flag>)
    requires AllKinds(t)
    ensures SumKinds(Tally(t, fs)) == SumKinds(t) + |fs|
  {
    if fs != [] {
      Tally_Sum(t, fs[..|fs| - 1]);
      Bump_Sum(Tally(t, fs[..|fs| - 1]), fs[|fs| - 1].kind);
    }
  }

  /** The kind counts add up to the number of flags. */
  lemma {:induction false} TallyAll_Sum(rs: seq<ModerationResult>)
    ensures SumKinds(TallyAll(rs)) == FlagCount(rs)
  {
    if rs != [] {
      TallyAll_Sum(rs[..|rs| - 1]);
      Tally_Sum(TallyAll(rs[..|rs| - 1]), rs[|rs| - 1].flags);
    }
  }

  /** A result the checker approved. */
  predicate Approved(r: ModerationResult) {
    r.suggestion == Approve
  }

  /** One more result raises the approved count by one exactly when it is
      approved. */
  lemma Approved_Step(results: seq<ModerationResult>, i: nat)
    requires i < |results|
    ensures Count(Approved, results[..i + 1]) == Count(Approved, results[..i]) + (if Approved(results[i]) then 1 else 0)
  {
    assert results[..i + 1] == results[..i] + [results[i]];
    Count_Append(Approved, results[..i], [results[i]]);
  }

  /** The inner loop: each flag adds one to the count of its kind. */
  method TallyFlags(t: map<FlagType, nat>, flags: seq<Flag>) returns (u: map<FlagType, nat>)
    requires AllKinds(t)
    ensures u == Tally(t, flags)
  {
    u := t;
    for j := 0 to |flags|
      invariant u == Tally(t, flags[..j])
    {
      assert flags[..j + 1][..j] == flags[..j];
      u := u[flags[j].kind := u[flags[j].kind] + 1];
    }
    assert flags[..|flags|] == flags;
  }

  /** `calculateModerationStats(results)`. */
  method CalculateModerationStats(results: seq<ModerationResult>) returns (st: ModerationStats)
    ensures st.total == |results|
    ensures st.clean + st.needsReview + st.rejected == st.total
    ensures st.clean == Count(Approved, results)
    ensures st.flagTypes == TallyAll(results)
    ensures AllKinds(st.flagTypes) && SumKinds(st.flagTypes) == FlagCount(results)
  {
    var clean, needsReview, rejected := 0, 0, 0;
    var kinds := TallyAll([]);
    for i := 0 to |results|
      invariant clean + needsReview + rejected == i
      invariant clean == Count(Approved, results[..i])
      invariant kinds == TallyAll(results[..i])
    {
      var r := results[i];
      Approved_Step(results, i);
      if r.suggestion == Approve {
        clean := clean + 1;
      } else if r.suggestion == ReviewIt {
        needsReview := needsReview + 1;
      } else {
        rejected := rejected + 1;
      }
      kinds := TallyFlags(kinds, r.flags);
      assert results[..i + 1][..i] == results[..i];
    }
    assert results[..|results|] == results;
    TallyAll_Sum(results);
    st := ModerationStats(|results|, clean, needsReview, rejected, kinds);
  }
}

/** The request checks of src/lib/validations.ts: the schema bounds written
    as predicates, the per-key sliding-window limiter, the escape and
    sanitiser helpers and the spam heuristic for reviews. */
module Validations {
  import opened Common
  import opened Regex
  import HtmlText
  import RateWindow

  // ---------------------------------------------------------------- schemas

  /** `CreateReviewSchema`; the uuid shape of `planId` and the optional
      per-dimension ratings are not modelled. */
  predicate ReviewInputValid(rating: real, title: string, content: string, userName: Option<string>) {
    rating.Floor as real == rating && 1.0 <= rating <= 5.0
    && 1 <= |title| <= 100
    && 10 <= |content| <= 5000
    && (userName.Some? ==> |userName.value| <= 50)
  }

  /** `CreateShoppingListSchema`. */
  predicate ShoppingListInputValid(name: string, description: Option<string>) {
    1 <= |name| <= 100 && (description.Some? ==> |description.value| <= 500)
  }

  /** `AddShoppingListItemSchema` / `UpdateShoppingListItemSchema`. */
  predicate ItemInputValid(quantity: real, notes: Option<string>) {
    quantity.Floor as real == quantity && quantity > 0.0
    && (notes.Some? ==> |notes.value| <= 200)
  }

  /** `FilterQuerySchema`: `limit` in 1..100, `offset` at least 0. */
  predicate FilterQueryValid(priceMin: Option<real>, priceMax: Option<real>, limit: int, offset: int) {
    (priceMin.Some? ==> priceMin.value >= 0.0) && (priceMax.Some? ==> priceMax.value >= 0.0)
    && 1 <= limit <= 100 && offset >= 0
  }

  /** A rating the schema admits is a whole number of stars from 1 to 5. */
  lemma ReviewInputValid_Rating(rating: real, title: string, content: string, userName: Option<string>)
    requires ReviewInputValid(rating, title, content, userName)
    ensures rating.Floor in {1, 2, 3, 4, 5} && rating == rating.Floor as real
  {}

  // ------------------------------------------------------------ rate limit

  /** The module-level `rateLimitMap`: for each key the timestamps (in
      milliseconds) of its recorded requests. */
  class RateLimiter {
    var requests: map<string, seq<int>>

    constructor ()
      ensures requests == map[]
    {
      requests := map[];
    }

    function Stored(key: string): seq<int>
      reads this
    {
      if key in requests then requests[key] else []
    }

    /** `checkRateLimit(key, maxRequests, windowMs)` at time `now`: refuses,
        recording nothing, when `maxRequests` recent requests are already
        stored; otherwise stores the recent ones plus `now` and admits. */
    method CheckRateLimit(key: string, maxRequests: int, windowMs: int, now: int) returns (ok: bool)
      modifies this
      ensures var d := RateWindow.Admit(old(Stored(key)), now, maxRequests, windowMs);
        ok == d.Some? && requests == if ok then old(requests)[key := d.value] else old(requests)
    {
      var recent := RateWindow.Recent(Stored(key), now, windowMs);
      if |recent| >= maxRequests {
        return false;
      }
      recent := recent + [now];
      // The source filters again when more than twice the limit are
      // stored; after an admission at most `maxRequests` are, so that
      // branch never runs.
      requests := requests[key := recent];
      return true;
    }
  }

  /** The re-filter branch of `checkRateLimit` is dead: an admitted list
      holds at most `maxRequests` timestamps, never more than twice that. */
  lemma CheckRateLimit_NoRefilter(times: seq<int>, now: int, maxRequests: int, windowMs: int)
    requires RateWindow.Admit(times, now, maxRequests, windowMs).Some?
    ensures |RateWindow.Admit(times, now, maxRequests, windowMs).value| <= 2 * maxRequests
  {}

  // ------------------------------------------------------------- escaping

  /** `escapeHtml(text)`: each of the five characters becomes its entity,
      every other character is copied. */
  function EscapeHtml(text: string): (r: string)
    ensures HtmlText.NoMarkup(r)
    ensures HtmlText.Decode(r) == text
  {
    HtmlText.Decode_Encode(text);
    HtmlText.Encode(text)
  }

  /** `escapeHtml` changes nothing in a text without special characters and
      works character by character. */
  lemma EscapeHtml_Chars(a: string, c: char, b: string)
    ensures EscapeHtml(a + [c] + b) == EscapeHtml(a) + HtmlText.Entity(c) + EscapeHtml(b)
    ensures !HtmlText.Special(c) ==> EscapeHtml(a + [c] + b) == EscapeHtml(a) + [c] + EscapeHtml(b)
  {
    HtmlText.Encode_Chars(a, c, b);
  }

  /** `sanitizeInput(input)`: tags removed, then escaped, white space
      collapsed and trimmed. */
  function SanitizeInput(input: string): (r: string)
    ensures HtmlText.Tidy(r)
    ensures '<' !in r && '>' !in r
  {
    HtmlText.Scrub(HtmlText.StripTags(input))
  }

  // ------------------------------------------------------------ spam score

  /** The three spam expressions, as their source text. */
  const SpamPatterns: seq<string> := [
    "/viagra|cialis|casino|lottery|poker|adult/gi",
    "/\\b(click here|buy now|limited offer)\\b/gi",
    "/(http|https|www\\.|\\.com)/g"
  ]

  /** The sum of `matches.length * 2` over the first `n` patterns. */
  function PatternScore(m: Matcher, text: string, n: nat): (s: nat)
    requires n <= |SpamPatterns|
  {
    if n == 0 then 0 else PatternScore(m, text, n - 1) + 2 * |m(SpamPatterns[n - 1], text)|
  }

  /** The full suspicion score of `shouldModerateReview`. */
  function SuspicionScore(m: Matcher, title: string, content: string): nat {
    var text := Lower(title + " " + content);
    var upper := UpperCount(text) as real / |text| as real;
    PatternScore(m, text, 3)
    + (if upper > 0.5 then 5 else 0)
    + (if RepeatCount(text, 0) > 0 then 3 else 0)
    + (if |content| < 15 then 1 else 0)
  }

  /** `shouldModerateReview(title, content)`. */
  method ShouldModerateReview(m: Matcher, title: string, content: string) returns (flag: bool)
    ensures flag <==> SuspicionScore(m, title, content) > 3
  {
    var text := Lower(title + " " + content);
    var suspicionScore := 0;
    for i := 0 to |SpamPatterns|
      invariant suspicionScore == PatternScore(m, text, i)
    {
      var matches := m(SpamPatterns[i], text);
      if |matches| > 0 {
        suspicionScore := suspicionScore + |matches| * 2;
      }
    }
    var uppercaseRatio := UpperCount(text) as real / |text| as real;
    if uppercaseRatio > 0.5 {
      suspicionScore := suspicionScore + 5;
    }
    if RepeatCount(text, 0) > 0 {
      suspicionScore := suspicionScore + 3;
    }
    if |content| < 15 {
      suspicionScore := suspicionScore + 1;
    }
    flag := suspicionScore > 3;
  }

  /** The text is lowered before the capitals are counted, so the capitals
      rule never contributes. */
  lemma SuspicionScore_NoUpperBonus(m: Matcher, title: string, content: string)
    ensures SuspicionScore(m, title, content)
         == PatternScore(m, Lower(title + " " + content), 3)
          + (if HasRun(Lower(title + " " + content)) then 3 else 0)
          + (if |content| < 15 then 1 else 0)
  {
    var text := Lower(title + " " + content);
    Lower_NoUpper(title + " " + content);
    assert UpperCount(text) == 0;
    RepeatTest(text);
  }

  /** With no spam matches and no run, only a short body is scored, and a
      single point never triggers moderation. */
  lemma ShouldModerate_CleanText(m: Matcher, title: string, content: string)
    requires forall p :: p in SpamPatterns ==> m(p, Lower(title + " " + content)) == []
    requires !HasRun(Lower(title + " " + content))
    ensures SuspicionScore(m, title, content) <= 1
  {
    SuspicionScore_NoUpperBonus(m, title, content);
    var text := Lower(title + " " + content);
    assert m(SpamPatterns[0], text) == [] && m(SpamPatterns[1], text) == [] && m(SpamPatterns[2], text) == [];
    assert PatternScore(m, text, 1) == 0;
    assert PatternScore(m, text, 2) == 0;
  }
}

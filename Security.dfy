/** src/lib/security.ts: input sanitising, e-mail and password checks, the
    IP whitelist, the CORS origin test and the token-bucket rate limiter.
    Header setting, CSRF tokens, UUID and URL checks and password hashing
    depend on the runtime and are not part of this model. */
module Security {
  import opened Common
  import opened Json
  import opened HtmlText

  /** `htmlEncode(text)`: the five-entity escape. */
  function HtmlEncode(text: string): (r: string)
    ensures NoMarkup(r)
    ensures Decode(r) == text
  {
    Decode_Encode(text);
    Encode(text)
  }

  // ---------------------------------------------------------------------
  // sanitizeInput

  const DefaultMaxLength := 5000
  const JsProtocol := "javascript:"

  /** A case-insensitive occurrence of `pat` (given in lower case) at `i`. */
  predicate FoldedAt(s: string, pat: string, i: int) {
    0 <= i && i + |pat| <= |s| && Lower(s[i..i + |pat|]) == pat
  }

  lemma FoldedAt_Tail(s: string, pat: string, i: int)
    requires s != [] && 0 <= i
    ensures FoldedAt(s[1..], pat, i) <==> FoldedAt(s, pat, i + 1)
  {
    if i + |pat| <= |s| - 1 {
      assert s[1..][i..i + |pat|] == s[i + 1..i + 1 + |pat|];
    }
  }

  /** `s.replace(/javascript:/gi, '')`: one left-to-right pass that drops
      every case-insensitive occurrence of `pat`. */
  function RemoveFolded(s: string, pat: string): (r: string)
    requires pat != []
    ensures |r| <= |s|
    ensures (forall i :: 0 <= i < |s| ==> !FoldedAt(s, pat, i)) ==> r == s
    decreases |s|
  {
    if |s| < |pat| then s
    else if Lower(s[..|pat|]) == pat then
      assert s[0..|pat|] == s[..|pat|] && FoldedAt(s, pat, 0);
      RemoveFolded(s[|pat|..], pat)
    else
      var rest := RemoveFolded(s[1..], pat);
      assert (forall i :: 0 <= i < |s| ==> !FoldedAt(s, pat, i))
          ==> (forall i :: 0 <= i < |s[1..]| ==> !FoldedAt(s[1..], pat, i)) by {
        forall i | 0 <= i < |s[1..]| {
          FoldedAt_Tail(s, pat, i);
        }
      }
      [s[0]] + rest
  }

  predicate WordChar(c: char) {
    'a' <= c <= 'z' || 'A' <= c <= 'Z' || '0' <= c <= '9' || c == '_'
  }

  /** The end of the longest run of characters satisfying `f` from `i`. */
  function SpanEnd(f: char -> bool, s: string, i: nat): (j: nat)
    requires i <= |s|
    ensures i <= j <= |s|
    ensures forall k :: i <= k < j ==> f(s[k])
    ensures j == |s| || !f(s[j])
    decreases |s| - i
  {
    if i < |s| && f(s[i]) then SpanEnd(f, s, i + 1) else i
  }

  /** The end of a match of `/on\w+\s*=/i` at the start of `s`. Backtracking
      cannot help: the character after a shorter word run is a word
      character, which is neither white space nor `=`. */
  function HandlerEnd(s: string): (r: Option<nat>)
    ensures r.Some? ==> 3 < r.value <= |s| && s[r.value - 1] == '='
  {
    if |s| >= 2 && LowerChar(s[0]) == 'o' && LowerChar(s[1]) == 'n' then
      var w := SpanEnd(WordChar, s, 2);
      var k := SpanEnd(IsSpace, s, w);
      if w > 2 && k < |s| && s[k] == '=' then Some(k + 1) else None
    else None
  }

  /** `s.replace(/on\w+\s*=/gi, '')`. */
  function RemoveHandlers(s: string): (r: string)
    ensures |r| <= |s|
    decreases |s|
  {
    if s == [] then []
    else
      match HandlerEnd(s)
      case Some(k) => RemoveHandlers(s[k..])
      case None => [s[0]] + RemoveHandlers(s[1..])
  }

  /** `sanitizeInput(input, maxLength)`: a non-string gives the empty text;
      otherwise the first `maxLength` characters are stripped of tags, of
      `javascript:` and of `on…=` handlers, escaped, collapsed and trimmed. */
  function SanitizeInput(input: Json, maxLength: int): (r: string)
    ensures !input.JStr? ==> r == ""
    ensures NoMarkup(r) && SingleSpaced(r)
    ensures r == [] || (!IsSpace(r[0]) && !IsSpace(r[|r| - 1]))
    ensures input.JStr? ==> |r| <= 6 * |Take(input.s, maxLength)|
  {
    if !input.JStr? then ""
    else
      var cut := Take(input.s, maxLength);
      Scrub(RemoveHandlers(RemoveFolded(StripTags(cut), JsProtocol)))
  }

  /** Only the first `maxLength` characters of the input matter. */
  lemma SanitizeInput_Prefix(s: string, maxLength: int)
    requires 0 <= maxLength <= |s|
    ensures SanitizeInput(JStr(s), maxLength) == SanitizeInput(JStr(s[..maxLength]), maxLength)
  {
    assert Take(s, maxLength) == Take(s[..maxLength], maxLength);
  }

  // ---------------------------------------------------------------------
  // isValidEmail

  predicate EmailChar(c: char) {
    !IsSpace(c) && c != '@'
  }

  /** `/^[^\s@]+@[^\s@]+\.[^\s@]+$/`: one `@` with something before it, and
      after it a `.` with something on either side, no white space at all. */
  predicate EmailShape(e: string) {
    exists a, d :: 0 < a && a + 1 < d && d + 1 < |e| && e[a] == '@' && e[d] == '.'
      && forall i :: 0 <= i < |e| && i != a ==> EmailChar(e[i])
  }

  predicate AllEmailChars(s: string) {
    forall i :: 0 <= i < |s| ==> EmailChar(s[i])
  }

  const MaxEmailLength := 254

  /** `isValidEmail(email)`, checked by splitting at the `@`. */
  function IsValidEmail(email: string): (r: bool)
    ensures r <==> EmailShape(email) && |email| <= MaxEmailLength
  {
    EmailScan_Shape(email);
    EmailScan(email) && |email| <= MaxEmailLength
  }

  predicate EmailScan(email: string) {
    '@' in email
    && var a := IndexOf(email, '@');
       var domain := email[a + 1..];
       a > 0 && |domain| >= 3 && AllEmailChars(email[..a]) && AllEmailChars(domain)
       && '.' in domain[1..|domain| - 1]
  }

  lemma EmailScan_Shape(e: string)
    ensures EmailScan(e) <==> EmailShape(e)
  {
    if EmailScan(e) {
      EmailScan_Sound(e);
    }
    if EmailShape(e) {
      EmailScan_Complete(e);
    }
  }

  lemma EmailScan_Sound(e: string)
    requires EmailScan(e)
    ensures EmailShape(e)
  {
    var a := IndexOf(e, '@');
    var domain := e[a + 1..];
    var m := domain[1..|domain| - 1];
    var k := IndexOf(m, '.');
    var d := a + 2 + k;
    assert e[d] == m[k];
    forall i | 0 <= i < |e| && i != a ensures EmailChar(e[i]) {
      if i < a {
        assert e[i] == e[..a][i];
      } else {
        assert e[i] == domain[i - a - 1];
      }
    }
  }

  lemma EmailScan_Complete(e: string)
    requires EmailShape(e)
    ensures EmailScan(e)
  {
    var a, d :| 0 < a && a + 1 < d && d + 1 < |e| && e[a] == '@' && e[d] == '.'
      && forall i :: 0 <= i < |e| && i != a ==> EmailChar(e[i]);
    assert '@' in e;
    var a' := IndexOf(e, '@');
    assert a' == a;
    var domain := e[a + 1..];
    assert |domain| >= 3;
    var m := domain[1..|domain| - 1];
    assert m[d - a - 2] == '.';
    assert '.' in m;
    assert AllEmailChars(e[..a]) by {
      forall i | 0 <= i < a ensures EmailChar(e[..a][i]) {
        assert e[..a][i] == e[i];
      }
    }
    assert AllEmailChars(domain) by {
      forall i | 0 <= i < |domain| ensures EmailChar(domain[i]) {
        assert domain[i] == e[a + 1 + i];
      }
    }
  }

  // ---------------------------------------------------------------------
  // validatePasswordStrength

  datatype PasswordStrength = PasswordStrength(isStrong: bool, score: int, feedback: seq<string>)

  predicate HasLower(p: string) { exists i :: 0 <= i < |p| && 'a' <= p[i] <= 'z' }
  predicate HasUpper(p: string) { exists i :: 0 <= i < |p| && 'A' <= p[i] <= 'Z' }
  predicate HasDigit(p: string) { exists i :: 0 <= i < |p| && '0' <= p[i] <= '9' }
  predicate SpecialChar(c: char) {
    c == '!' || c == '@' || c == '#' || c == '$' || c == '%' || c == '^' || c == '&' || c == '*'
  }
  predicate HasSpecial(p: string) { exists i :: 0 <= i < |p| && SpecialChar(p[i]) }

  function Bit(b: bool): nat { if b then 1 else 0 }

  /** The four checks that add to the score. */
  function PasswordScore(p: string): (n: nat) {
    Bit(|p| >= 8) + Bit(HasLower(p)) + Bit(HasUpper(p)) + Bit(HasDigit(p))
  }

  /** `validatePasswordStrength(password)`: one point for each of length,
      lower case, upper case and digit, one feedback line for each failed
      check; the special-character check only adds feedback. */
  method ValidatePasswordStrength(password: string) returns (r: PasswordStrength)
    ensures r.score == PasswordScore(password)
    ensures 0 <= r.score <= 4
    ensures r.isStrong <==> r.score >= 3
    ensures |r.feedback| == 4 - r.score + Bit(!HasSpecial(password))
    ensures (Bit(!HasSpecial(password)) == 1) <==> "密碼需要包含特殊字符" in r.feedback
  {
    var feedback: seq<string> := [];
    var score := 0;
    if |password| < 8 {
      feedback := feedback + ["密碼至少需要 8 個字符"];
    } else {
      score := score + 1;
    }
    if !HasLower(password) {
      feedback := feedback + ["密碼需要包含小寫字母"];
    } else {
      score := score + 1;
    }
    if !HasUpper(password) {
      feedback := feedback + ["密碼需要包含大寫字母"];
    } else {
      score := score + 1;
    }
    if !HasDigit(password) {
      feedback := feedback + ["密碼需要包含數字"];
    } else {
      score := score + 1;
    }
    assert "密碼需要包含特殊字符" !in feedback;
    if !HasSpecial(password) {
      feedback := feedback + ["密碼需要包含特殊字符"];
    }
    r := PasswordStrength(score >= 3, Min(score, 4), feedback);
  }

  // ---------------------------------------------------------------------
  // isIpAllowed, isCorsAllowed

  /** `isIpAllowed(ip, whitelist)`: an empty whitelist admits everyone. */
  function IsIpAllowed(ip: string, whitelist: seq<string>): (r: bool)
    ensures whitelist == [] ==> r
    ensures whitelist != [] ==> (r <==> ip in whitelist)
  {
    |whitelist| == 0 || ip in whitelist
  }

  /** The first entry of a whitelist shuts out every other address; after
      that, entries only widen it. */
  lemma IsIpAllowed_Extend(ip: string, whitelist: seq<string>, more: seq<string>)
    ensures whitelist != [] && IsIpAllowed(ip, whitelist) ==> IsIpAllowed(ip, whitelist + more)
    ensures whitelist == [] && more != [] ==> (IsIpAllowed(ip, whitelist + more) <==> ip in more)
  {
    assert whitelist == [] ==> whitelist + more == more;
  }

  /** `config.origin`: one origin, a list, a regular expression (abstracted
      as its test) or nothing. */
  datatype OriginRule =
    | Exact(origin: string)
    | AnyOf(origins: seq<string>)
    | Pattern(test: string -> bool)
    | NoRule

  /** `isCorsAllowed(origin, config)`. */
  function IsCorsAllowed(origin: Option<string>, rule: OriginRule): (r: bool)
    ensures !Present(origin) ==> !r
    ensures rule.NoRule? ==> !r
    ensures r && rule.Exact? ==> rule.origin == origin.value || rule.origin == "*"
    ensures r && rule.AnyOf? ==> origin.value in rule.origins || "*" in rule.origins
  {
    if !Present(origin) then false
    else
      match rule
      case Exact(o) => o == origin.value || o == "*"
      case AnyOf(os) => origin.value in os || "*" in os
      case Pattern(test) => test(origin.value)
      case NoRule => false
  }

  /** A `*` rule admits every present origin, and a listed origin is
      always admitted. */
  lemma IsCorsAllowed_Wildcard(origin: string, origins: seq<string>)
    requires origin != ""
    ensures IsCorsAllowed(Some(origin), Exact("*"))
    ensures "*" in origins || origin in origins ==> IsCorsAllowed(Some(origin), AnyOf(origins))
  {
  }

  // ---------------------------------------------------------------------
  // TokenBucket

  function RMin(a: real, b: real): real { if a <= b then a else b }

  /** A token bucket; `tokens` is a fraction, times are milliseconds and the
      refill rate is in tokens per second. */
  class TokenBucket {
    const capacity: real
    const refillRate: real
    var tokens: real
    var lastRefillTime: int

    predicate Valid()
      reads this
    {
      tokens <= capacity
    }

    constructor (capacity: real, refillRate: real, now: int)
      ensures this.capacity == capacity && this.refillRate == refillRate
      ensures tokens == capacity && lastRefillTime == now
      ensures Valid()
    {
      this.capacity := capacity;
      this.refillRate := refillRate;
      tokens := capacity;
      lastRefillTime := now;
    }

    /** The level `refill()` reaches at `now`. */
    function Refilled(now: int): (r: real)
      reads this
      ensures r <= capacity
      ensures r == capacity || r == tokens + (now - lastRefillTime) as real / 1000.0 * refillRate
    {
      RMin(capacity, tokens + (now - lastRefillTime) as real / 1000.0 * refillRate)
    }

    method Refill(now: int)
      modifies this
      ensures tokens == old(Refilled(now)) && lastRefillTime == now
      ensures Valid()
    {
      var timePassed := (now - lastRefillTime) as real / 1000.0;
      var tokensToAdd := timePassed * refillRate;
      tokens := RMin(capacity, tokens + tokensToAdd);
      lastRefillTime := now;
    }

    /** `consumeToken(amount)`: succeeds exactly when the refilled level
        covers `amount`, and then takes exactly `amount`. */
    method ConsumeToken(amount: real, now: int) returns (ok: bool)
      modifies this
      ensures ok <==> old(Refilled(now)) >= amount
      ensures tokens == (if ok then old(Refilled(now)) - amount else old(Refilled(now)))
      ensures lastRefillTime == now
      ensures amount >= 0.0 ==> Valid()
    {
      Refill(now);
      if tokens >= amount {
        tokens := tokens - amount;
        ok := true;
      } else {
        ok := false;
      }
    }

    /** `getAvailableTokens()`: the refilled level rounded down. */
    method GetAvailableTokens(now: int) returns (n: int)
      modifies this
      ensures tokens == old(Refilled(now)) && lastRefillTime == now
      ensures n as real <= tokens < n as real + 1.0
    {
      Refill(now);
      n := tokens.Floor;
    }
  }
}

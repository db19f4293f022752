/** The regular-expression vocabulary of the moderation code. A global
    `text.match(/…/g)` is an abstract `Matcher` from the pattern's source
    text and the subject to the list of matched substrings, so every rule
    below holds whatever the engine returns. The one pattern whose matches
    are counted as a structural property, the run detector `/(.)\1{4,}/g`,
    is written out as the scan the engine performs. */
module Regex {
  import opened Common

  /** `text.match(pattern)` with the `g` flag: every match, or none. */
  type Matcher = (string, string) -> seq<string>

  /** The characters `.` does not match. */
  predicate LineTerminator(c: char) {
    c == '\n' || c == '\r' || c == '\U{2028}' || c == '\U{2029}'
  }

  /** The end of the run of characters equal to `s[i]` that starts at `i`. */
  function SameEnd(s: string, i: nat): (e: nat)
    requires i < |s|
    ensures i < e <= |s|
    ensures forall k :: i <= k < e ==> s[k] == s[i]
    ensures e == |s| || s[e] != s[i]
    decreases |s| - i
  {
    if i + 1 < |s| && s[i + 1] == s[i] then SameEnd(s, i + 1) else i + 1
  }

  /** A match of `(.)\1{4,}` can start at `i`: five equal characters that
      are not line terminators. */
  predicate RunAt(s: string, i: nat) {
    i < |s| && !LineTerminator(s[i]) && SameEnd(s, i) - i >= 5
  }

  /** The matches of `/(.)\1{4,}/g` in `s[i..]`, in order: the greedy
      quantifier consumes the whole run once it has matched. */
  function RepeatMatches(s: string, i: nat): (r: seq<string>)
    requires i <= |s|
    ensures forall k :: 0 <= k < |r| ==> |r[k]| >= 5
    decreases |s| - i
  {
    if i == |s| then []
    else if RunAt(s, i) then [s[i..SameEnd(s, i)]] + RepeatMatches(s, SameEnd(s, i))
    else RepeatMatches(s, i + 1)
  }

  /** The number of those matches. */
  function RepeatCount(s: string, i: nat): nat
    requires i <= |s|
  {
    |RepeatMatches(s, i)|
  }

  /** Five equal non-terminator characters in a row. */
  predicate HasRun(s: string) {
    exists i :: 0 <= i <= |s| - 5 && Five(s, i)
  }

  predicate Five(s: string, i: int) {
    0 <= i <= |s| - 5 && !LineTerminator(s[i])
    && s[i + 1] == s[i] && s[i + 2] == s[i] && s[i + 3] == s[i] && s[i + 4] == s[i]
  }

  lemma Five_RunAt(s: string, i: nat)
    requires Five(s, i)
    ensures RunAt(s, i)
  {
  }

  lemma RunAt_Five(s: string, i: nat)
    requires RunAt(s, i)
    ensures Five(s, i)
  {}

  /** The scan from `i` finds a match exactly when five equal characters
      start somewhere at or after `i`. */
  lemma {:induction false} RepeatCount_Positive(s: string, i: nat)
    requires i <= |s|
    ensures RepeatCount(s, i) > 0 <==> exists j :: i <= j <= |s| - 5 && Five(s, j)
    decreases |s| - i
  {
    if i == |s| {
    } else if RunAt(s, i) {
      RunAt_Five(s, i);
    } else {
      RepeatCount_Positive(s, i + 1);
      if Five(s, i) {
        Five_RunAt(s, i);
      }
    }
  }

  /** `/(.)\1{4,}/g.test(s)`. */
  lemma RepeatTest(s: string)
    ensures RepeatCount(s, 0) > 0 <==> HasRun(s)
  {
    RepeatCount_Positive(s, 0);
  }

  /** The number of ASCII capitals: `(s.match(/[A-Z]/g) || []).length`. */
  function UpperCount(s: string): (n: nat)
    ensures n <= |s|
    ensures NoUpper(s) ==> n == 0
  {
    if s == [] then 0 else (if 'A' <= s[0] <= 'Z' then 1 else 0) + UpperCount(s[1..])
  }
}

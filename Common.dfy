/** Shared vocabulary of the model: optional values, the string operations the
    JavaScript, TypeScript and Python sources use (includes, startsWith,
    toLowerCase, trim, join, split), filtering and counting over sequences,
    and the rounding of an exact ratio as `Math.round` does it. */
module Common {

  datatype Option<+T> = None | Some(value: T) {
    function GetOr(default: T): T {
      match this
      case Some(v) => v
      case None => default
    }
  }

  /** A computation that either gives a value or fails with a message
      (a thrown `Error`, or an error response). */
  datatype Result<+T> = Ok(value: T) | Err(error: string)

  /** JavaScript truthiness of an optional string: present and non-empty. */
  predicate Present(s: Option<string>) {
    s.Some? && s.value != ""
  }

  // ---------------------------------------------------------------- strings

  predicate StartsWith(s: string, prefix: string) {
    |prefix| <= |s| && s[..|prefix|] == prefix
  }

  predicate EndsWith(s: string, suffix: string) {
    |suffix| <= |s| && s[|s| - |suffix|..] == suffix
  }

  /** `sub` occurs in `s` at position `i`. */
  predicate OccursAt(s: string, sub: string, i: int) {
    0 <= i <= |s| - |sub| && s[i..i + |sub|] == sub
  }

  /** `s.includes(sub)` / Python's `sub in s`. */
  predicate Contains(s: string, sub: string) {
    exists i | 0 <= i <= |s| - |sub| :: OccursAt(s, sub, i)
  }

  lemma ContainsSelf(s: string)
    ensures Contains(s, s)
  {
    assert OccursAt(s, s, 0);
  }

  lemma ContainsEmpty(s: string)
    ensures Contains(s, "")
  {
    assert OccursAt(s, "", 0);
  }

  /** A substring of a part is a substring of every string built around it. */
  lemma ContainsInfix(a: string, b: string, c: string, sub: string)
    requires Contains(b, sub)
    ensures Contains(a + b + c, sub)
  {
    var i :| 0 <= i <= |b| - |sub| && OccursAt(b, sub, i);
    var s := a + b + c;
    assert s[|a| + i..|a| + i + |sub|] == b[i..i + |sub|];
    assert OccursAt(s, sub, |a| + i);
  }

  /** A string does not contain a longer one. */
  lemma Contains_Length(s: string, sub: string)
    requires Contains(s, sub)
    ensures |sub| <= |s|
  {}

  /** `String.prototype.toLowerCase` on the ASCII letters; every other
      character (the CJK text this system handles) is its own lower case. */
  function LowerChar(c: char): (r: char)
    ensures 'A' <= c <= 'Z' ==> r as int == c as int + 32
    ensures !('A' <= c <= 'Z') ==> r == c
  {
    if 'A' <= c <= 'Z' then (c as int + 32) as char else c
  }

  function Lower(s: string): (r: string)
    ensures |r| == |s|
    ensures forall i :: 0 <= i < |s| ==> r[i] == LowerChar(s[i])
  {
    seq(|s|, i requires 0 <= i < |s| => LowerChar(s[i]))
  }

  lemma LowerChar_Idempotent(c: char)
    ensures LowerChar(LowerChar(c)) == LowerChar(c)
  {}

  lemma {:induction false} Lower_Idempotent(s: string)
    ensures Lower(Lower(s)) == Lower(s)
  {
    assert forall i :: 0 <= i < |s| ==> Lower(Lower(s))[i] == LowerChar(LowerChar(s[i]));
  }

  lemma Lower_Concat(a: string, b: string)
    ensures Lower(a + b) == Lower(a) + Lower(b)
  {
    assert Lower(a + b) == Lower(a) + Lower(b);
  }

  /** `Lower(s)` never contains an ASCII upper-case letter. */
  predicate NoUpper(s: string) {
    forall i :: 0 <= i < |s| ==> !('A' <= s[i] <= 'Z')
  }

  lemma Lower_NoUpper(s: string)
    ensures NoUpper(Lower(s))
  {}

  /** The white space that `String.prototype.trim` and `/\s/` recognise:
      tab, line and form feeds, carriage return, the space separators
      (space, no-break space, U+1680, U+2000 to U+200A, U+202F, U+205F,
      ideographic space), the line and paragraph separators and the BOM. */
  predicate IsSpace(c: char) {
    c == ' ' || c == '\t' || c == '\n' || c == '\r' || c == '\U{000B}' || c == '\U{000C}'
    || c == '\U{00A0}' || c == '\U{1680}' || '\U{2000}' <= c <= '\U{200A}'
    || c == '\U{2028}' || c == '\U{2029}' || c == '\U{202F}' || c == '\U{205F}'
    || c == '\U{3000}' || c == '\U{FEFF}'
  }

  function TrimStart(s: string): (r: string)
    ensures |r| <= |s| && r == s[|s| - |r|..]
    ensures r == [] || !IsSpace(r[0])
    ensures forall i :: 0 <= i < |s| - |r| ==> IsSpace(s[i])
  {
    if |s| > 0 && IsSpace(s[0]) then TrimStart(s[1..]) else s
  }

  function TrimEnd(s: string): (r: string)
    ensures |r| <= |s| && r == s[..|r|]
    ensures r == [] || !IsSpace(r[|r| - 1])
    ensures forall i :: |r| <= i < |s| ==> IsSpace(s[i])
  {
    if |s| > 0 && IsSpace(s[|s| - 1]) then TrimEnd(s[..|s| - 1]) else s
  }

  /** `s.trim()`: white space removed from both ends. */
  function Trim(s: string): (r: string)
    ensures |r| <= |s|
    ensures r == [] || (!IsSpace(r[0]) && !IsSpace(r[|r| - 1]))
  {
    TrimEnd(TrimStart(s))
  }

  predicate IsBlank(s: string) {
    forall i :: 0 <= i < |s| ==> IsSpace(s[i])
  }

  lemma TrimStart_EmptyIffBlank(s: string)
    ensures TrimStart(s) == [] <==> IsBlank(s)
  {
  }

  lemma TrimEnd_EmptyIffBlank(s: string)
    ensures TrimEnd(s) == [] <==> IsBlank(s)
  {
  }

  /** `s.trim()` is empty exactly when `s` is blank. */
  lemma Trim_EmptyIffBlank(s: string)
    ensures Trim(s) == [] <==> IsBlank(s)
  {
    var a := TrimStart(s);
    TrimStart_EmptyIffBlank(s);
    TrimEnd_EmptyIffBlank(a);
    if a != [] {
      assert !IsSpace(a[0]);
    }
  }

  lemma Trim_NoSpaceIsIdentity(s: string)
    requires s == [] || (!IsSpace(s[0]) && !IsSpace(s[|s| - 1]))
    ensures Trim(s) == s
  {}

  lemma Trim_Idempotent(s: string)
    ensures Trim(Trim(s)) == Trim(s)
  {
    Trim_NoSpaceIsIdentity(Trim(s));
  }

  /** `parts.join(sep)`. */
  function Join(parts: seq<string>, sep: string): (r: string)
    ensures |parts| == 1 ==> r == parts[0]
    ensures parts == [] ==> r == ""
  {
    if |parts| == 0 then ""
    else if |parts| == 1 then parts[0]
    else parts[0] + sep + Join(parts[1..], sep)
  }

  /** Every part is a substring of the joined text. */
  lemma {:induction false} Join_ContainsPart(parts: seq<string>, sep: string, k: nat, sub: string)
    requires k < |parts| && Contains(parts[k], sub)
    ensures Contains(Join(parts, sep), sub)
  {
    if |parts| == 1 {
    } else if k == 0 {
      ContainsInfix("", parts[0], sep + Join(parts[1..], sep), sub);
      assert "" + parts[0] + (sep + Join(parts[1..], sep)) == Join(parts, sep);
    } else {
      Join_ContainsPart(parts[1..], sep, k - 1, sub);
      ContainsInfix(parts[0] + sep, Join(parts[1..], sep), "", sub);
      assert parts[0] + sep + Join(parts[1..], sep) + "" == Join(parts, sep);
    }
  }

  /** `s.split(sep)` for a one-character separator. */
  function Split(s: string, sep: char): (r: seq<string>)
    ensures |r| >= 1
    ensures forall k :: 0 <= k < |r| ==> sep !in r[k]
    decreases |s|
  {
    if sep !in s then [s]
    else
      var i := IndexOf(s, sep);
      [s[..i]] + Split(s[i + 1..], sep)
  }

  /** Joining parts that do not contain the separator and splitting at it
      gives the parts back. */
  lemma {:induction false} Split_JoinParts(parts: seq<string>, sep: char)
    requires parts != []
    requires forall i :: 0 <= i < |parts| ==> sep !in parts[i]
    ensures Split(Join(parts, [sep]), sep) == parts
    decreases |parts|
  {
    if |parts| > 1 {
      var head, tail := parts[0], parts[1..];
      assert parts == [head] + tail;
      assert forall i :: 0 <= i < |tail| ==> sep !in tail[i] by {
        forall i | 0 <= i < |tail| ensures sep !in tail[i] {
          assert tail[i] == parts[i + 1];
        }
      }
      Split_JoinParts(tail, sep);
      assert Join(parts, [sep]) == head + [sep] + Join(tail, [sep]);
      Split_Cons(head, Join(tail, [sep]), sep);
    }
  }

  /** The first position of `c` in `s`. */
  function IndexOf(s: string, c: char): (i: nat)
    requires c in s
    ensures i < |s| && s[i] == c && c !in s[..i]
  {
    if s[0] == c then 0 else 1 + IndexOf(s[1..], c)
  }

  /** A text that starts with a separator-free piece and a separator splits
      into that piece and the split of the rest. */
  lemma Split_Cons(head: string, rest: string, sep: char)
    requires sep !in head
    ensures Split(head + [sep] + rest, sep) == [head] + Split(rest, sep)
  {
    var s := head + [sep] + rest;
    assert s[|head|] == sep;
    var i := IndexOf(s, sep);
    assert forall k :: 0 <= k < |head| ==> s[k] == head[k];
    assert forall k :: |head| < k <= |s| ==> s[..k][|head|] == sep;
    assert s[..i] == head && s[i + 1..] == rest;
  }

  /** Splitting and joining back with the same separator gives the text back. */
  lemma {:induction false} Split_Join(s: string, sep: char)
    ensures Join(Split(s, sep), [sep]) == s
    decreases |s|
  {
    if sep in s {
      var i := IndexOf(s, sep);
      var rest := Split(s[i + 1..], sep);
      var parts := Split(s, sep);
      assert parts == [s[..i]] + rest;
      assert parts[0] == s[..i] && parts[1..] == rest && |parts| >= 2;
      Split_Join(s[i + 1..], sep);
      calc {
        Join(parts, [sep]);
        parts[0] + [sep] + Join(parts[1..], [sep]);
        s[..i] + [sep] + s[i + 1..];
        { assert s[..i] + [sep] + s[i + 1..] == s[..i] + s[i..]; }
        s;
      }
    } else {
      assert Split(s, sep) == [s];
    }
  }

  // -------------------------------------------------------------- sequences

  predicate NoDup<T(==)>(s: seq<T>) {
    forall i, j :: 0 <= i < j < |s| ==> s[i] != s[j]
  }

  /** Appending a new element keeps a sequence free of duplicates. */
  lemma NoDup_Snoc<T>(s: seq<T>, x: T)
    requires NoDup(s) && x !in s
    ensures NoDup(s + [x])
  {
    var s' := s + [x];
    forall i, j | 0 <= i < j < |s'| ensures s'[i] != s'[j] {
      assert s'[i] == s[i];
      if j < |s| {
        assert s'[j] == s[j];
      }
    }
  }

  /** `xs.filter(f)`. */
  function Filter<T>(f: T -> bool, s: seq<T>): (r: seq<T>)
    ensures |r| <= |s|
    ensures forall i :: 0 <= i < |r| ==> f(r[i])
  {
    if s == [] then [] else (if f(s[0]) then [s[0]] else []) + Filter(f, s[1..])
  }

  /** `x` survives the filter exactly when it was there and passes. */
  lemma {:induction false} Filter_Mem<T>(f: T -> bool, s: seq<T>, x: T)
    ensures x in Filter(f, s) <==> x in s && f(x)
  {
    if s != [] {
      Filter_Mem(f, s[1..], x);
      assert s == [s[0]] + s[1..];
    }
  }

  lemma {:induction false} Filter_Append<T>(f: T -> bool, a: seq<T>, b: seq<T>)
    ensures Filter(f, a + b) == Filter(f, a) + Filter(f, b)
  {
    if a == [] {
      assert a + b == b;
    } else {
      var ab := a + b;
      assert ab[0] == a[0];
      assert ab[1..] == a[1..] + b;
      Filter_Append(f, a[1..], b);
      calc {
        Filter(f, ab);
        (if f(a[0]) then [a[0]] else []) + Filter(f, a[1..] + b);
        (if f(a[0]) then [a[0]] else []) + (Filter(f, a[1..]) + Filter(f, b));
      }
    }
  }

  /** Filtering keeps everything exactly when every element passes. */
  lemma {:induction false} Filter_All<T>(f: T -> bool, s: seq<T>)
    requires forall i :: 0 <= i < |s| ==> f(s[i])
    ensures Filter(f, s) == s
  {
    if s != [] { Filter_All(f, s[1..]); }
  }

  /** Two filters in a row are one filter by the conjunction. */
  lemma {:induction false} Filter_Filter<T>(f: T -> bool, g: T -> bool, h: T -> bool, s: seq<T>)
    requires forall i :: 0 <= i < |s| ==> h(s[i]) == (f(s[i]) && g(s[i]))
    ensures Filter(g, Filter(f, s)) == Filter(h, s)
  {
    if s != [] {
      var t := s[1..];
      assert forall i :: 0 <= i < |t| ==> t[i] == s[i + 1];
      Filter_Filter(f, g, h, t);
      assert h(s[0]) == (f(s[0]) && g(s[0]));
      if f(s[0]) {
        var y := Filter(f, s);
        assert y == [s[0]] + Filter(f, t);
        assert y[0] == s[0] && y[1..] == Filter(f, t);
      } else {
        assert Filter(f, s) == [] + Filter(f, t) == Filter(f, t);
      }
    }
  }

  /** A filtered duplicate-free sequence is duplicate-free. */
  lemma {:induction false} Filter_NoDup<T>(f: T -> bool, s: seq<T>)
    requires NoDup(s)
    ensures NoDup(Filter(f, s))
  {
    if s != [] {
      Filter_NoDup(f, s[1..]);
      var r := Filter(f, s);
      var t := Filter(f, s[1..]);
      Filter_Mem(f, s[1..], s[0]);
      assert s[0] !in t;
      assert r == (if f(s[0]) then [s[0]] else []) + t;
    }
  }

  /** The number of elements satisfying `f`: `xs.filter(f).length`. */
  function Count<T>(f: T -> bool, s: seq<T>): (n: nat)
    ensures n <= |s|
  {
    |Filter(f, s)|
  }

  lemma Count_Append<T>(f: T -> bool, a: seq<T>, b: seq<T>)
    ensures Count(f, a + b) == Count(f, a) + Count(f, b)
  {
    Filter_Append(f, a, b);
  }

  /** One more element raises the count by one exactly when it passes. */
  lemma Count_Snoc<T>(f: T -> bool, s: seq<T>, i: nat)
    requires i < |s|
    ensures Count(f, s[..i + 1]) == Count(f, s[..i]) + (if f(s[i]) then 1 else 0)
  {
    assert s[..i + 1] == s[..i] + [s[i]];
    Count_Append(f, s[..i], [s[i]]);
  }

  /** Nothing is counted exactly when no element passes. */
  lemma Count_Zero<T>(f: T -> bool, s: seq<T>)
    ensures Count(f, s) == 0 <==> forall i :: 0 <= i < |s| ==> !f(s[i])
  {
    var r := Filter(f, s);
    if r != [] {
      Filter_Mem(f, s, r[0]);
    }
    forall i | 0 <= i < |s| && f(s[i]) ensures r != [] {
      Filter_Mem(f, s, s[i]);
    }
  }

  /** Counts of predicates that never hold together add up to at most the length. */
  lemma {:induction false} Count_Disjoint3<T(!new)>(f: T -> bool, g: T -> bool, h: T -> bool, s: seq<T>)
    requires forall x :: !(f(x) && g(x)) && !(f(x) && h(x)) && !(g(x) && h(x))
    ensures Count(f, s) + Count(g, s) + Count(h, s) <= |s|
  {
    if s != [] {
      Count_Disjoint3(f, g, h, s[1..]);
      assert s == [s[0]] + s[1..];
      Count_Append(f, [s[0]], s[1..]);
      Count_Append(g, [s[0]], s[1..]);
      Count_Append(h, [s[0]], s[1..]);
    }
  }

  /** Counting over a sequence whose elements were rewritten by `m`. */
  function MapSeq<T, U>(m: T -> U, s: seq<T>): (r: seq<U>)
    ensures |r| == |s| && forall i :: 0 <= i < |s| ==> r[i] == m(s[i])
  {
    seq(|s|, i requires 0 <= i < |s| => m(s[i]))
  }

  /** Mapping one more element appends its image. */
  lemma MapSeq_Snoc<T, U>(m: T -> U, s: seq<T>, i: nat)
    requires i < |s|
    ensures MapSeq(m, s[..i + 1]) == MapSeq(m, s[..i]) + [m(s[i])]
  {
    assert |MapSeq(m, s[..i + 1])| == |MapSeq(m, s[..i]) + [m(s[i])]|;
  }

  function Sum(s: seq<int>): int {
    if s == [] then 0 else s[0] + Sum(s[1..])
  }

  lemma {:induction false} Sum_Append(a: seq<int>, b: seq<int>)
    ensures Sum(a + b) == Sum(a) + Sum(b)
  {
    if a == [] {
      assert a + b == b;
    } else {
      Sum_Append(a[1..], b);
      assert (a + b)[1..] == a[1..] + b;
    }
  }

  /** JavaScript's `a <= b` on strings: lexicographic by character code. */
  predicate StrLe(a: string, b: string)
    decreases |a|
  {
    a == [] || (b != [] && (a[0] < b[0] || (a[0] == b[0] && StrLe(a[1..], b[1..]))))
  }

  predicate StrLt(a: string, b: string) {
    StrLe(a, b) && a != b
  }

  lemma {:induction false} StrLe_Total(a: string, b: string)
    ensures StrLe(a, b) || StrLe(b, a)
    decreases |a|
  {
    if a != [] && b != [] && a[0] == b[0] {
      StrLe_Total(a[1..], b[1..]);
    }
  }

  lemma {:induction false} StrLe_Trans(a: string, b: string, c: string)
    requires StrLe(a, b) && StrLe(b, c)
    ensures StrLe(a, c)
    decreases |a|
  {
    if a != [] && b != [] && c != [] && a[0] == b[0] && b[0] == c[0] {
      StrLe_Trans(a[1..], b[1..], c[1..]);
    }
  }

  lemma {:induction false} StrLe_Antisymmetric(a: string, b: string)
    requires StrLe(a, b) && StrLe(b, a)
    ensures a == b
    decreases |a|
  {
    if a != [] && b != [] {
      StrLe_Antisymmetric(a[1..], b[1..]);
      assert a == [a[0]] + a[1..] && b == [b[0]] + b[1..];
    }
  }

  // ---------------------------------------------------------------- numbers

  function DigitChar(d: int): (c: char)
    requires 0 <= d < 10
    ensures '0' <= c <= '9'
  {
    (48 + d) as char
  }

  /** `n.toString()` for a natural number. */
  function NatToString(n: nat): (r: string)
    ensures |r| >= 1
    ensures forall i :: 0 <= i < |r| ==> '0' <= r[i] <= '9'
    ensures |r| > 1 ==> r[0] != '0'
  {
    if n < 10 then [DigitChar(n)] else NatToString(n / 10) + [DigitChar(n % 10)]
  }

  /** `n.toString()` for an integer. */
  function IntToString(n: int): (r: string)
    ensures |r| >= 1
  {
    if n < 0 then "-" + NatToString(-n) else NatToString(n)
  }

  /** Reads the digits back. */
  function ParseNat(s: string): int
    decreases |s|
  {
    if s == [] then 0 else 10 * ParseNat(s[..|s| - 1]) + (s[|s| - 1] as int - 48)
  }

  lemma {:induction false} ParseNat_NatToString(n: nat)
    ensures ParseNat(NatToString(n)) == n
  {
    if n >= 10 {
      var r := NatToString(n);
      ParseNat_NatToString(n / 10);
      assert r[..|r| - 1] == NatToString(n / 10);
    }
  }

  function Min(a: int, b: int): int { if a <= b then a else b }
  function Max(a: int, b: int): int { if a >= b then a else b }

  /** `Math.round(n / d)` for an exact ratio with a positive denominator:
      the nearest integer, halves rounded up. */
  function RoundDiv(n: int, d: int): (r: int)
    requires d > 0
    ensures 2 * d * r <= 2 * n + d < 2 * d * r + 2 * d
  {
    (2 * n + d) / (2 * d)
  }

  /** `Math.round(x)` of a real number: the nearest integer, halves
      rounded up. */
  function Round(x: real): (r: int)
    ensures r as real - 0.5 <= x < r as real + 0.5
  {
    (x + 0.5).Floor
  }

  /** The position of a smallest key. */
  function ArgMin<T>(s: seq<T>, key: T -> int): (i: nat)
    requires s != []
    ensures i < |s| && forall j :: 0 <= j < |s| ==> key(s[i]) <= key(s[j])
  {
    if |s| == 1 then 0
    else
      var k := ArgMin(s[..|s| - 1], key);
      assert forall j :: 0 <= j < |s| - 1 ==> s[..|s| - 1][j] == s[j];
      if key(s[|s| - 1]) < key(s[k]) then |s| - 1 else k
  }

  /** The position of a largest key. */
  function ArgMax<T>(s: seq<T>, key: T -> int): (i: nat)
    requires s != []
    ensures i < |s| && forall j :: 0 <= j < |s| ==> key(s[j]) <= key(s[i])
  {
    if |s| == 1 then 0
    else
      var k := ArgMax(s[..|s| - 1], key);
      assert forall j :: 0 <= j < |s| - 1 ==> s[..|s| - 1][j] == s[j];
      if key(s[|s| - 1]) > key(s[k]) then |s| - 1 else k
  }

  /** `Math.min(...s.map(key))`, with `None` for JavaScript's `Infinity`
      on an empty list. */
  function MinBy<T>(s: seq<T>, key: T -> int): (r: Option<int>)
    ensures r.None? <==> s == []
    ensures r.Some? ==> exists i :: 0 <= i < |s| && key(s[i]) == r.value
    ensures r.Some? ==> forall i :: 0 <= i < |s| ==> r.value <= key(s[i])
  {
    if s == [] then None else Some(key(s[ArgMin(s, key)]))
  }

  /** `Math.max(...s.map(key))`, with `None` for `-Infinity`. */
  function MaxBy<T>(s: seq<T>, key: T -> int): (r: Option<int>)
    ensures r.None? <==> s == []
    ensures r.Some? ==> exists i :: 0 <= i < |s| && key(s[i]) == r.value
    ensures r.Some? ==> forall i :: 0 <= i < |s| ==> key(s[i]) <= r.value
  {
    if s == [] then None else Some(key(s[ArgMax(s, key)]))
  }

  /** An element reaches the minimum exactly when no element is smaller. */
  lemma MinBy_Iff<T>(s: seq<T>, key: T -> int, x: T)
    requires x in s
    ensures MinBy(s, key) == Some(key(x)) <==> forall y :: y in s ==> key(x) <= key(y)
  {
    var m := MinBy(s, key);
    var i :| 0 <= i < |s| && key(s[i]) == m.value;
    assert s[i] in s;
    var k :| 0 <= k < |s| && s[k] == x;
  }

  /** An element reaches the maximum exactly when no element is larger. */
  lemma MaxBy_Iff<T>(s: seq<T>, key: T -> int, x: T)
    requires x in s
    ensures MaxBy(s, key) == Some(key(x)) <==> forall y :: y in s ==> key(y) <= key(x)
  {
    var m := MaxBy(s, key);
    var i :| 0 <= i < |s| && key(s[i]) == m.value;
    assert s[i] in s;
    var k :| 0 <= k < |s| && s[k] == x;
  }

  /** `Math.floor(n / d)` and `Math.ceil(n / d)`. */
  function FloorDiv(n: int, d: int): (r: int)
    requires d > 0
    ensures d * r <= n < d * r + d
  {
    n / d
  }

  function CeilDiv(n: int, d: int): (r: int)
    requires d > 0
    ensures d * r - d < n <= d * r
  {
    -((-n) / d)
  }

  // ------------------------------------------------------ bounded sequences

  /** `s.slice(0, n)`. */
  function Take<T>(s: seq<T>, n: int): (r: seq<T>)
    ensures |r| == if n <= 0 then 0 else Min(n, |s|)
    ensures r == s[..|r|]
  {
    if n <= 0 then [] else s[..Min(n, |s|)]
  }

  /** `s.slice(start, end)`: a negative bound counts from the end, and
      both are clamped to the sequence. */
  function JsSlice<T>(s: seq<T>, start: int, end: int): (r: seq<T>)
    ensures 0 <= start && 0 <= end ==> |r| <= Max(0, end - start)
    ensures 0 <= start <= end ==> |r| == Max(0, Min(end, |s|) - start)
    ensures 0 <= start <= |s| && start <= end ==> r == s[start..Min(end, |s|)]
  {
    var a := if start < 0 then Max(|s| + start, 0) else Min(start, |s|);
    var b := if end < 0 then Max(|s| + end, 0) else Min(end, |s|);
    if a >= b then [] else s[a..b]
  }

  /** A prefix of a duplicate-free sequence is duplicate-free. */
  lemma Take_NoDup<T>(s: seq<T>, n: int)
    requires NoDup(s)
    ensures NoDup(Take(s, n))
  {
    var r := Take(s, n);
    assert forall i :: 0 <= i < |r| ==> r[i] == s[i];
  }

  /** `[...new Set(s)]`: the first occurrence of every element, in order. */
  function Dedup<T(==,!new)>(s: seq<T>): (r: seq<T>)
    ensures NoDup(r) && |r| <= |s|
    ensures forall x :: x in r <==> x in s
  {
    if s == [] then []
    else
      var r := Dedup(s[..|s| - 1]);
      assert forall x :: x in s <==> x in s[..|s| - 1] || x == s[|s| - 1] by {
        assert s == s[..|s| - 1] + [s[|s| - 1]];
      }
      if s[|s| - 1] in r then r else r + [s[|s| - 1]]
  }

  /** De-duplicating one more element appends it unless it was seen. */
  lemma Dedup_Snoc<T(!new)>(s: seq<T>, x: T)
    ensures Dedup(s + [x]) == if x in Dedup(s) then Dedup(s) else Dedup(s) + [x]
  {
    assert (s + [x])[..|s|] == s;
  }

  /** Removing duplicates twice is removing them once. */
  lemma {:induction false} Dedup_NoDup<T(!new)>(s: seq<T>)
    requires NoDup(s)
    ensures Dedup(s) == s
  {
    if s != [] {
      var init := s[..|s| - 1];
      assert NoDup(init);
      Dedup_NoDup(init);
      assert s[|s| - 1] !in init by {
        forall i | 0 <= i < |init| ensures init[i] != s[|s| - 1] { assert init[i] == s[i]; }
      }
      assert Dedup(s) == Dedup(init) + [s[|s| - 1]];
      assert init + [s[|s| - 1]] == s;
    }
  }

  // ------------------------------------------------------------ searching

  /** `s.lastIndexOf(sub)`: the last position where `sub` occurs, or -1. */
  function LastIndexOf(s: string, sub: string): (r: int)
    ensures r == -1 || 0 <= r <= |s| - |sub|
    ensures r >= 0 ==> OccursAt(s, sub, r)
    ensures forall j :: r < j <= |s| - |sub| ==> !OccursAt(s, sub, j)
  {
    LastIndexFrom(s, sub, |s| - |sub|)
  }

  function LastIndexFrom(s: string, sub: string, j: int): (r: int)
    requires j <= |s| - |sub|
    ensures r == -1 || 0 <= r <= j
    ensures r >= 0 ==> OccursAt(s, sub, r)
    ensures forall k :: r < k <= j ==> !OccursAt(s, sub, k)
    decreases j + 1
  {
    if j < 0 then -1
    else if OccursAt(s, sub, j) then j
    else LastIndexFrom(s, sub, j - 1)
  }

  predicate SortedInts(s: seq<int>) {
    forall i, j :: 0 <= i < j < |s| ==> s[i] <= s[j]
  }

  /** A duplicate-free sequence holds every value at most once. */
  lemma {:induction false} NoDup_Multiplicity<T>(s: seq<T>, x: T)
    requires NoDup(s)
    ensures multiset(s)[x] <= 1
  {
    if s != [] {
      var t := s[1..];
      assert NoDup(t);
      NoDup_Multiplicity(t, x);
      assert s == [s[0]] + t;
      if s[0] == x {
        assert x !in t;
      }
    }
  }

  /** A value at two positions occurs at least twice. */
  lemma Multiplicity_Two<T>(s: seq<T>, i: int, j: int)
    requires 0 <= i < j < |s| && s[i] == s[j]
    ensures multiset(s)[s[i]] >= 2
  {
    assert s == s[..j] + s[j..];
    assert s[j..][0] == s[j];
    assert s[..j][i] == s[i];
    assert multiset(s)[s[i]] == multiset(s[..j])[s[i]] + multiset(s[j..])[s[i]];
  }

  /** A permutation of a duplicate-free sequence is duplicate-free. */
  lemma NoDup_Permutation<T>(a: seq<T>, b: seq<T>)
    requires NoDup(a) && multiset(a) == multiset(b)
    ensures NoDup(b)
  {
    forall i, j | 0 <= i < j < |b| ensures b[i] != b[j] {
      if b[i] == b[j] {
        var x := b[i];
        NoDup_Multiplicity(a, x);
        Multiplicity_Two(b, i, j);
        assert false;
      }
    }
  }

  predicate IntsSortedExcept(s: seq<int>, i: int, j: int)
    requires 0 <= j <= i < |s|
  {
    forall k, l :: 0 <= k < l <= i && k != j && l != j ==> s[k] <= s[l]
  }

  /** Swapping an out-of-order `s[j]` leftwards keeps the insertion going. */
  lemma IntsInsertStep(s: seq<int>, i: int, j: int)
    requires 0 < j <= i < |s|
    requires IntsSortedExcept(s, i, j) && forall l :: j < l <= i ==> s[j] <= s[l]
    requires s[j - 1] > s[j]
    ensures IntsSortedExcept(s[j - 1 := s[j]][j := s[j - 1]], i, j - 1)
    ensures var t := s[j - 1 := s[j]][j := s[j - 1]]; forall l :: j - 1 < l <= i ==> t[j - 1] <= t[l]
  {}

  /** Swaps `a[j - 1]` and `a[j]`. */
  method SwapInts(a: array<int>, j: int)
    requires 0 < j < a.Length
    modifies a
    ensures a[..] == old(a[..])[j - 1 := old(a[j])][j := old(a[j - 1])]
    ensures multiset(a[..]) == multiset(old(a[..]))
  {
    a[j - 1], a[j] := a[j], a[j - 1];
  }

  /** One insertion step: sinks `a[i]` into the sorted `a[..i]`. */
  method InsertInts(a: array<int>, i: int)
    requires 0 <= i < a.Length && SortedInts(a[..i])
    modifies a
    ensures SortedInts(a[..i + 1])
    ensures multiset(a[..]) == multiset(old(a[..]))
  {
    var j := i;
    assert IntsSortedExcept(a[..], i, j) by {
      assert forall k :: 0 <= k < i ==> a[..i][k] == a[k];
    }
    while j > 0 && a[j - 1] > a[j]
      invariant 0 <= j <= i
      invariant multiset(a[..]) == multiset(old(a[..]))
      invariant IntsSortedExcept(a[..], i, j) && forall l :: j < l <= i ==> a[j] <= a[l]
    {
      IntsInsertStep(a[..], i, j);
      SwapInts(a, j);
      j := j - 1;
    }
    assert forall k :: 0 <= k <= i ==> a[..i + 1][k] == a[k];
  }

  /** Sorts integers ascending (`a.sort((x, y) => x - y)`), by insertion. */
  method SortInts(s: seq<int>) returns (r: seq<int>)
    ensures SortedInts(r) && multiset(r) == multiset(s)
  {
    var a := new int[|s|](i requires 0 <= i < |s| => s[i]);
    assert a[..] == s;
    for i := 0 to a.Length
      invariant SortedInts(a[..i])
      invariant multiset(a[..]) == multiset(s)
    {
      InsertInts(a, i);
    }
    assert a[..a.Length] == a[..];
    r := a[..];
  }
}

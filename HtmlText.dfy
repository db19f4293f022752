/** The text scrubbing shared by the two input sanitisers: the five-entity
    HTML escape (`htmlEncode` in src/lib/security.ts and `escapeHtml` in
    src/lib/validations.ts use the same table), the tag stripper
    `replace(/<[^>]*>/g, '')` and the white-space collapse
    `replace(/\s+/g, ' ')`, each written as a left-to-right scan. */
module HtmlText {
  import opened Common

  /** The characters the escape table rewrites. */
  predicate Special(c: char) {
    c == '&' || c == '<' || c == '>' || c == '"' || c == '\''
  }

  /** The characters that must never survive an escape. */
  predicate Markup(c: char) {
    c == '<' || c == '>' || c == '"' || c == '\''
  }

  predicate NoMarkup(s: string) {
    forall i :: 0 <= i < |s| ==> !Markup(s[i])
  }

  /** The escape of one character. */
  function Entity(c: char): (r: string)
    ensures NoMarkup(r)
    ensures 1 <= |r| <= 6
    ensures !Special(c) <==> r == [c]
  {
    match c
    case '&' => "&amp;"
    case '<' => "&lt;"
    case '>' => "&gt;"
    case '"' => "&quot;"
    case '\'' => "&#039;"
    case _ => [c]
  }

  /** `text.replace(/[&<>"']/g, (char) => map[char])`. */
  function Encode(s: string): (r: string)
    ensures NoMarkup(r)
    ensures |s| <= |r| <= 6 * |s|
  {
    if s == [] then [] else Entity(s[0]) + Encode(s[1..])
  }

  /** Escaping distributes over concatenation, so each character is
      escaped on its own. */
  lemma {:induction false} Encode_Append(a: string, b: string)
    ensures Encode(a + b) == Encode(a) + Encode(b)
  {
    if a == [] {
      assert a + b == b;
    } else {
      assert (a + b)[1..] == a[1..] + b;
      Encode_Append(a[1..], b);
    }
  }

  /** A single character is escaped to its entity. */
  lemma Encode_Single(c: char)
    ensures Encode([c]) == Entity(c)
  {
    assert [c][1..] == [];
  }

  /** Every character other than the five is passed through, and each of
      the five becomes its entity. */
  lemma Encode_Chars(a: string, c: char, b: string)
    ensures Encode(a + [c] + b) == Encode(a) + Entity(c) + Encode(b)
    ensures !Special(c) ==> Encode(a + [c] + b) == Encode(a) + [c] + Encode(b)
  {
    Encode_Append(a + [c], b);
    Encode_Append(a, [c]);
    Encode_Single(c);
  }

  /** A text without special characters is left as it is. */
  lemma {:induction false} Encode_Plain(s: string)
    requires forall i :: 0 <= i < |s| ==> !Special(s[i])
    ensures Encode(s) == s
  {
    if s != [] {
      Encode_Plain(s[1..]);
    }
  }

  /** A single left-to-right pass that turns the five entities back into
      their characters; any other text is copied. */
  function Decode(s: string): string
    decreases |s|
  {
    if s == [] then []
    else if StartsWith(s, "&amp;") then "&" + Decode(s[5..])
    else if StartsWith(s, "&lt;") then "<" + Decode(s[4..])
    else if StartsWith(s, "&gt;") then ">" + Decode(s[4..])
    else if StartsWith(s, "&quot;") then "\"" + Decode(s[6..])
    else if StartsWith(s, "&#039;") then "'" + Decode(s[6..])
    else [s[0]] + Decode(s[1..])
  }

  /** A text whose second character differs from an entity's does not
      start with it. */
  lemma Differs(s: string, p: string)
    requires |p| >= 2 && |s| >= 2 && s[1] != p[1]
    ensures !StartsWith(s, p)
  {
  }

  /** A text whose first character is not an entity's `&` does not start
      with it. */
  lemma FirstDiffers(s: string, p: string)
    requires |p| >= 1 && |s| >= 1 && s[0] != p[0]
    ensures !StartsWith(s, p)
  {
    if |p| <= |s| {
      assert s[..|p|][0] == s[0];
    }
  }

  lemma Decode_Named(ent: string, c: char, t: string)
    requires ent == Entity(c) && Special(c)
    ensures Decode(ent + t) == [c] + Decode(t)
  {
    var u := ent + t;
    assert u[..|ent|] == ent && u[|ent|..] == t;
    assert u[1] == ent[1];
    if c == '&' {
      assert StartsWith(u, "&amp;");
    } else if c == '<' {
      Differs(u, "&amp;");
      assert StartsWith(u, "&lt;");
    } else if c == '>' {
      Differs(u, "&amp;");
      Differs(u, "&lt;");
      assert StartsWith(u, "&gt;");
    } else if c == '"' {
      Differs(u, "&amp;");
      Differs(u, "&lt;");
      Differs(u, "&gt;");
      assert StartsWith(u, "&quot;");
    } else {
      Differs(u, "&amp;");
      Differs(u, "&lt;");
      Differs(u, "&gt;");
      Differs(u, "&quot;");
      assert StartsWith(u, "&#039;");
    }
  }

  lemma Decode_Plain(c: char, t: string)
    requires !Special(c)
    ensures Decode([c] + t) == [c] + Decode(t)
  {
    var u := [c] + t;
    assert u[0] == c && u[1..] == t;
    FirstDiffers(u, "&amp;");
    FirstDiffers(u, "&lt;");
    FirstDiffers(u, "&gt;");
    FirstDiffers(u, "&quot;");
    FirstDiffers(u, "&#039;");
  }

  /** Decoding an escaped character in front of any text yields that
      character in front of the decoded text. */
  lemma Decode_Entity(c: char, t: string)
    ensures Decode(Entity(c) + t) == [c] + Decode(t)
  {
    if Special(c) {
      Decode_Named(Entity(c), c, t);
    } else {
      Decode_Plain(c, t);
    }
  }

  /** Decoding once gives back exactly the text that was escaped. */
  lemma {:induction false} Decode_Encode(s: string)
    ensures Decode(Encode(s)) == s
  {
    if s != [] {
      Decode_Encode(s[1..]);
      Decode_Entity(s[0], Encode(s[1..]));
      assert s == [s[0]] + s[1..];
    }
  }

  /** No `<` of the text is followed, anywhere later, by a `>`: the text
      holds no complete tag. */
  predicate NoTag(s: string) {
    forall i, j :: 0 <= i < j < |s| && s[i] == '<' ==> s[j] != '>'
  }

  /** `s.replace(/<[^>]*>/g, '')`: every `<` that has a `>` after it is
      removed together with everything up to and including the first such
      `>`; any other character is kept. */
  function StripTags(s: string): (r: string)
    ensures |r| <= |s|
    ensures '>' !in s ==> r == s
    ensures '>' in r ==> '>' in s
    ensures NoTag(r)
    decreases |s|
  {
    if s == [] then []
    else if s[0] == '<' && '>' in s[1..] then
      var k := IndexOf(s[1..], '>');
      StripTags(s[k + 2..])
    else
      var rest := StripTags(s[1..]);
      assert forall x :: x in s[1..] ==> x in s;
      [s[0]] + rest
  }

  /** Every white-space character is a plain space and no two are
      adjacent. */
  predicate SingleSpaced(s: string) {
    (forall i :: 0 <= i < |s| && IsSpace(s[i]) ==> s[i] == ' ')
    && (forall i :: 0 <= i < |s| - 1 && IsSpace(s[i]) ==> !IsSpace(s[i + 1]))
  }

  /** `s.replace(/\s+/g, ' ')`: each maximal run of white space becomes one
      space. */
  function Collapse(s: string): (r: string)
    ensures |r| <= |s|
    ensures SingleSpaced(r)
    ensures NoMarkup(s) ==> NoMarkup(r)
    ensures s == [] <==> r == []
    ensures s != [] ==> r[0] == (if IsSpace(s[0]) then ' ' else s[0])
    decreases |s|
  {
    if s == [] then []
    else if IsSpace(s[0]) then
      var t := TrimStart(s);
      assert |t| < |s| by {
        assert |t| == |s| ==> t == s;
      }
      assert NoMarkup(s) ==> NoMarkup(t) by {
        if NoMarkup(s) {
          forall i | 0 <= i < |t| ensures !Markup(t[i]) {
            assert t[i] == s[|s| - |t| + i];
          }
        }
      }
      " " + Collapse(t)
    else
      [s[0]] + Collapse(s[1..])
  }

  /** The shape both sanitisers promise: nothing that opens markup, white
      space only as single inner spaces. */
  predicate Tidy(s: string) {
    NoMarkup(s) && SingleSpaced(s) && (s == [] || (!IsSpace(s[0]) && !IsSpace(s[|s| - 1])))
  }

  lemma Slice_Keeps(s: string, i: int, j: int)
    requires 0 <= i <= j <= |s|
    requires NoMarkup(s) && SingleSpaced(s)
    ensures NoMarkup(s[i..j]) && SingleSpaced(s[i..j])
  {
    var t := s[i..j];
    forall k | 0 <= k < |t| ensures !Markup(t[k]) && (IsSpace(t[k]) ==> t[k] == ' ') {
      assert t[k] == s[i + k];
    }
    forall k | 0 <= k < |t| - 1 && IsSpace(t[k]) ensures !IsSpace(t[k + 1]) {
      assert t[k] == s[i + k] && t[k + 1] == s[i + k + 1];
    }
  }

  /** Trimming a collapsed, escaped text leaves it tidy. */
  lemma Trim_Tidy(s: string)
    requires NoMarkup(s) && SingleSpaced(s)
    ensures Tidy(Trim(s))
  {
    var a := TrimStart(s);
    Slice_Keeps(s, |s| - |a|, |s|);
    var b := TrimEnd(a);
    Slice_Keeps(a, 0, |b|);
  }

  /** The tail shared by both sanitisers: escape, collapse, trim. */
  function Scrub(s: string): (r: string)
    ensures Tidy(r)
    ensures |r| <= 6 * |s|
  {
    Trim_Tidy(Collapse(Encode(s)));
    Trim(Collapse(Encode(s)))
  }
}

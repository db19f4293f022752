/** CSV text as the exporters write it: every cell in double quotes with
    embedded quotes doubled (section 2 of RFC 4180), cells separated by
    commas and records by a line feed. A reader for that text is given as the
    partner of the writer, and the two are proved to round-trip. */
module Csv {
  import opened Common

  /** Doubles every double quote. */
  function Escape(c: string): (r: string)
    ensures |r| >= |c|
  {
    if c == [] then []
    else (if c[0] == '"' then "\"\"" else [c[0]]) + Escape(c[1..])
  }

  /** `"${cell.replace(/"/g, '""')}"`. */
  function QuoteCell(c: string): (r: string)
    ensures |r| >= 2 && r[0] == '"' && r[|r| - 1] == '"'
  {
    "\"" + Escape(c) + "\""
  }

  function QuoteAll(cells: seq<string>): (r: seq<string>)
    ensures |r| == |cells|
    ensures forall i :: 0 <= i < |cells| ==> r[i] == QuoteCell(cells[i])
  {
    seq(|cells|, i requires 0 <= i < |cells| => QuoteCell(cells[i]))
  }

  /** One record: the quoted cells joined by commas. */
  function EncodeRow(cells: seq<string>): string {
    Join(QuoteAll(cells), ",")
  }

  function EncodeRows(rows: seq<seq<string>>): (r: seq<string>)
    ensures |r| == |rows|
    ensures forall i :: 0 <= i < |rows| ==> r[i] == EncodeRow(rows[i])
  {
    seq(|rows|, i requires 0 <= i < |rows| => EncodeRow(rows[i]))
  }

  /** A whole document: the records joined by line feeds. */
  function EncodeDoc(rows: seq<seq<string>>): string {
    Join(EncodeRows(rows), "\n")
  }

  // ----------------------------------------------------------------- reader

  /** Reads the inside of a quoted cell whose opening quote has been consumed:
      `""` stands for one quote, a lone `"` closes the cell. Gives the cell and
      the text after the closing quote. */
  function ReadQuoted(s: string): (r: Option<(string, string)>)
    ensures r.Some? ==> |r.value.1| < |s|
    decreases |s|
  {
    if s == [] then None
    else if s[0] == '"' then
      if |s| >= 2 && s[1] == '"' then
        match ReadQuoted(s[2..])
        case None => None
        case Some(p) => Some(("\"" + p.0, p.1))
      else Some(("", s[1..]))
    else
      match ReadQuoted(s[1..])
      case None => None
      case Some(p) => Some(([s[0]] + p.0, p.1))
  }

  /** Reads the cells of one record, up to a line feed or the end of the text;
      gives the cells and the text after the record (line feed included). */
  function ReadRow(s: string): (r: Option<(seq<string>, string)>)
    ensures r.Some? ==> |r.value.1| < |s| && |r.value.0| >= 1
    decreases |s|
  {
    if s == [] || s[0] != '"' then None
    else
      match ReadQuoted(s[1..])
      case None => None
      case Some(p) =>
        if p.1 != [] && p.1[0] == ',' then
          match ReadRow(p.1[1..])
          case None => None
          case Some(q) => Some(([p.0] + q.0, q.1))
        else if p.1 == [] || p.1[0] == '\n' then Some(([p.0], p.1))
        else None
  }

  /** Reads a whole document into its records. */
  function ReadDoc(s: string): (r: Option<seq<seq<string>>>)
    ensures r.Some? ==> |r.value| >= 1
    decreases |s|
  {
    match ReadRow(s)
    case None => None
    case Some(p) =>
      if p.1 == [] then Some([p.0])
      else
        match ReadDoc(p.1[1..])
        case None => None
        case Some(rest) => Some([p.0] + rest)
  }

  // ------------------------------------------------------------ round trip

  /** Reading an escaped cell followed by its closing quote gives the cell
      back, provided the closing quote is not itself followed by a quote. */
  lemma {:induction false} ReadQuoted_Escape(c: string, rest: string)
    requires rest == [] || rest[0] != '"'
    ensures ReadQuoted(Escape(c) + "\"" + rest) == Some((c, rest))
  {
    var s := Escape(c) + "\"" + rest;
    if c == [] {
      assert s == "\"" + rest;
      assert s[1..] == rest;
    } else if c[0] == '"' {
      ReadQuoted_Escape(c[1..], rest);
      assert s == "\"\"" + (Escape(c[1..]) + "\"" + rest);
      assert s[2..] == Escape(c[1..]) + "\"" + rest;
      assert "\"" + c[1..] == c;
    } else {
      ReadQuoted_Escape(c[1..], rest);
      assert s == [c[0]] + (Escape(c[1..]) + "\"" + rest);
      assert s[1..] == Escape(c[1..]) + "\"" + rest;
      assert [c[0]] + c[1..] == c;
    }
  }

  /** One step of the record reader over a quoted cell. */
  lemma ReadRow_QuoteCell(c: string, after: string)
    requires after == [] || after[0] != '"'
    ensures ReadRow(QuoteCell(c) + after) ==
      if after != [] && after[0] == ',' then
        match ReadRow(after[1..])
        case None => None
        case Some(q) => Some(([c] + q.0, q.1))
      else if after == [] || after[0] == '\n' then Some(([c], after))
      else None
  {
    var s := QuoteCell(c) + after;
    assert s[0] == '"';
    assert s[1..] == Escape(c) + "\"" + after;
    ReadQuoted_Escape(c, after);
  }

  /** Reading an encoded record followed by a line feed or the end of the
      text gives the cells back. */
  lemma {:induction false} ReadRow_EncodeRow(cells: seq<string>, rest: string)
    requires |cells| >= 1
    requires rest == [] || rest[0] == '\n'
    ensures ReadRow(EncodeRow(cells) + rest) == Some((cells, rest))
  {
    var q := QuoteAll(cells);
    if |cells| == 1 {
      assert EncodeRow(cells) == QuoteCell(cells[0]);
      ReadRow_QuoteCell(cells[0], rest);
      assert cells == [cells[0]];
    } else {
      var tail := cells[1..];
      assert QuoteAll(tail) == q[1..];
      var after := "," + (EncodeRow(tail) + rest);
      assert EncodeRow(cells) + rest == QuoteCell(cells[0]) + after;
      ReadRow_QuoteCell(cells[0], after);
      assert after[1..] == EncodeRow(tail) + rest;
      ReadRow_EncodeRow(tail, rest);
      assert [cells[0]] + tail == cells;
    }
  }

  /** The reader inverts the writer on every document with at least one
      record and at least one cell per record. */
  lemma {:induction false} ReadDoc_EncodeDoc(rows: seq<seq<string>>)
    requires |rows| >= 1
    requires forall i :: 0 <= i < |rows| ==> |rows[i]| >= 1
    ensures ReadDoc(EncodeDoc(rows)) == Some(rows)
  {
    var e := EncodeRows(rows);
    if |rows| == 1 {
      assert EncodeDoc(rows) == EncodeRow(rows[0]) + "";
      ReadRow_EncodeRow(rows[0], "");
      assert rows == [rows[0]];
    } else {
      var tail := rows[1..];
      assert EncodeRows(tail) == e[1..];
      var rest := "\n" + EncodeDoc(tail);
      assert EncodeDoc(rows) == EncodeRow(rows[0]) + rest;
      ReadRow_EncodeRow(rows[0], rest);
      assert rest[1..] == EncodeDoc(tail);
      ReadDoc_EncodeDoc(tail);
      assert [rows[0]] + tail == rows;
    }
  }

  /** Escaping exactly doubles the number of quotes. */
  lemma {:induction false} Escape_QuotesPaired(c: string)
    ensures multiset(Escape(c))['"'] == 2 * multiset(c)['"']
  {
    if c != [] {
      Escape_QuotesPaired(c[1..]);
      assert c == [c[0]] + c[1..];
      assert Escape(c) == (if c[0] == '"' then "\"\"" else [c[0]]) + Escape(c[1..]);
    }
  }
}

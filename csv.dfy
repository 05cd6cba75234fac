/**
 * The CSV text the screens export: a header line of column names, then one
 * record per row whose cells are wrapped in double quotes, lines joined with
 * CRLF. Most screens wrap cells as they are; the location screen also doubles
 * every quote inside a cell, as section 2 of RFC 4180 requires. A reference
 * reader for that format states what the exported text means.
 */
module Csv {
  import opened Wrappers
  import opened Text
  import opened Seqs

  /** `"${v}"`: the cell in quotes, nothing escaped. */
  function QuoteCell(v: string): string {
    "\"" + v + "\""
  }

  /** `v.replace(/"/g, '""')`. */
  function EscapeQuotes(v: string): (r: string)
    ensures '"' !in v ==> r == v
    ensures |r| >= |v|
  {
    if v == [] then [] else EscapedChar(v[0]) + EscapeQuotes(v[1..])
  }

  /** One character of a cell as the location screen writes it. */
  function EscapedChar(ch: char): string {
    if ch == '"' then "\"\"" else [ch]
  }

  /** The location screen's cell: quotes doubled, then wrapped in quotes. */
  function EscapedCell(v: string): string {
    QuoteCell(EscapeQuotes(v))
  }

  function UnescapedRecord(cells: seq<string>): string {
    Join(Map(cells, QuoteCell), ",")
  }

  function EscapedRecord(cells: seq<string>): string {
    Join(Map(cells, EscapedCell), ",")
  }

  /** `[header.join(','), ...rows].join('\r\n')`, given the rows' record lines. */
  function Document(header: seq<string>, records: seq<string>): string {
    Join([Join(header, ",")] + records, "\r\n")
  }

  function UnescapedDocument(header: seq<string>, rows: seq<seq<string>>): string {
    Document(header, Map(rows, UnescapedRecord))
  }

  function EscapedDocument(header: seq<string>, rows: seq<seq<string>>): string {
    Document(header, Map(rows, EscapedRecord))
  }

  /** Reads the inside of a quoted cell up to its closing quote, turning `""` into `"`. */
  function ReadQuoted(s: string): (r: Option<(string, string)>)
    ensures r.Some? ==> |r.value.1| < |s|
    decreases |s|
  {
    if s == [] then None
    else if s[0] == '"' then
      if |s| >= 2 && s[1] == '"' then
        match ReadQuoted(s[2..])
        case None => None
        case Some((c, rest)) => Some(("\"" + c, rest))
      else Some(([], s[1..]))
    else
      match ReadQuoted(s[1..])
      case None => None
      case Some((c, rest)) => Some(([s[0]] + c, rest))
  }

  /** Reads the comma-separated quoted cells of one record and returns what follows it. */
  function ReadRecord(s: string): (r: Option<(seq<string>, string)>)
    ensures r.Some? ==> |r.value.1| < |s|
    decreases |s|
  {
    if s == [] || s[0] != '"' then None
    else
      match ReadQuoted(s[1..])
      case None => None
      case Some((c, rest)) =>
        if rest != [] && rest[0] == ',' then
          match ReadRecord(rest[1..])
          case None => None
          case Some((cs, after)) => Some(([c] + cs, after))
        else Some(([c], rest))
  }

  /** Reads CRLF-separated records up to the end of the text. */
  function ReadRecords(s: string): Option<seq<seq<string>>>
    decreases |s|
  {
    match ReadRecord(s)
    case None => None
    case Some((cells, rest)) =>
      if rest == [] then Some([cells])
      else if |rest| >= 2 && rest[0] == '\r' && rest[1] == '\n' then
        match ReadRecords(rest[2..])
        case None => None
        case Some(rs) => Some([cells] + rs)
      else None
  }

  /** Reads an exported document: the plain header line, then at least one record. */
  function ParseDocument(s: string): Option<(seq<string>, seq<seq<string>>)> {
    match IndexOf(s, '\r')
    case None => None
    case Some(i) =>
      if i + 1 < |s| && s[i + 1] == '\n' then
        match ReadRecords(s[i + 2..])
        case None => None
        case Some(rs) => Some((Split(s[..i], ','), rs))
      else None
  }

  lemma ReadEscapedCell(v: string, rest: string)
    requires rest == [] || rest[0] != '"'
    ensures ReadQuoted(EscapeQuotes(v) + "\"" + rest) == Some((v, rest))
  {
    var t := "\"" + rest;
    ClosingQuote(rest);
    ReadEscapedText(v, t, rest);
    assert EscapeQuotes(v) + "\"" + rest == EscapeQuotes(v) + t;
  }

  /** A quote not followed by another closes the cell. */
  lemma ClosingQuote(rest: string)
    requires rest == [] || rest[0] != '"'
    ensures ReadQuoted("\"" + rest) == Some(([], rest))
  {
    assert ("\"" + rest)[1..] == rest;
  }

  /** Written characters in front of text that reads as the end of the cell read back as themselves. */
  lemma {:induction false} ReadEscapedText(v: string, t: string, rest: string)
    requires ReadQuoted(t) == Some(([], rest))
    ensures ReadQuoted(EscapeQuotes(v) + t) == Some((v, rest))
    decreases |v|
  {
    if v == [] {
      assert EscapeQuotes(v) + t == t;
    } else {
      ReadEscapedText(v[1..], t, rest);
      EscapeQuotesCons(v, t);
      ReadEscapedChar(v[0], EscapeQuotes(v[1..]) + t, v[1..], rest);
      assert [v[0]] + v[1..] == v;
    }
  }

  lemma EscapeQuotesCons(v: string, t: string)
    requires v != []
    ensures EscapeQuotes(v) + t == EscapedChar(v[0]) + (EscapeQuotes(v[1..]) + t)
  {
  }

  /** Inside a quoted cell, a written character reads back as itself. */
  lemma ReadEscapedChar(ch: char, tail: string, c: string, rest: string)
    requires ReadQuoted(tail) == Some((c, rest))
    ensures ReadQuoted(EscapedChar(ch) + tail) == Some(([ch] + c, rest))
  {
    if ch == '"' {
      assert (EscapedChar(ch) + tail)[2..] == tail;
    } else {
      assert (EscapedChar(ch) + tail)[1..] == tail;
    }
  }

  /** A record is its first cell, then a comma and the record of the other cells. */
  lemma EscapedRecordCons(cells: seq<string>)
    requires |cells| >= 1
    ensures EscapedRecord(cells) ==
      EscapedCell(cells[0]) + (if |cells| == 1 then [] else "," + EscapedRecord(cells[1..]))
  {
    var m := Map(cells, EscapedCell);
    if |cells| > 1 {
      assert m[1..] == Map(cells[1..], EscapedCell);
    }
  }

  /** How `ReadRecord` continues once the first cell has been read. */
  lemma ReadRecordAfterCell(s: string, c: string, after: string)
    requires |s| >= 1 && s[0] == '"' && ReadQuoted(s[1..]) == Some((c, after))
    ensures (after == [] || after[0] != ',') ==> ReadRecord(s) == Some(([c], after))
    ensures after != [] && after[0] == ',' && ReadRecord(after[1..]).Some? ==>
      ReadRecord(s) == Some(([c] + ReadRecord(after[1..]).value.0, ReadRecord(after[1..]).value.1))
  {
  }

  /** A written cell followed by text that cannot continue the record reads as that one cell. */
  lemma ReadLastCell(c: string, rest: string)
    requires rest == [] || (rest[0] != ',' && rest[0] != '"')
    ensures ReadRecord(EscapedCell(c) + rest) == Some(([c], rest))
  {
    var s := EscapedCell(c) + rest;
    var inner := EscapeQuotes(c) + "\"" + rest;
    assert s == "\"" + inner;
    assert s[1..] == inner;
    ReadEscapedCell(c, rest);
    ReadRecordAfterCell(s, c, rest);
  }

  /** A written cell, a comma, then the text of a record reads as one more cell. */
  lemma ReadCellThenRecord(c: string, more: string, cs: seq<string>, rest: string)
    requires ReadRecord(more) == Some((cs, rest))
    ensures ReadRecord(EscapedCell(c) + ("," + more)) == Some(([c] + cs, rest))
  {
    var after := "," + more;
    var s := EscapedCell(c) + after;
    var inner := EscapeQuotes(c) + "\"" + after;
    assert s == "\"" + inner;
    assert s[1..] == inner;
    assert after[1..] == more;
    ReadEscapedCell(c, after);
    ReadRecordAfterCell(s, c, after);
  }

  lemma {:induction false} ReadEscapedRecord(cells: seq<string>, rest: string)
    requires |cells| >= 1
    requires rest == [] || (rest[0] != ',' && rest[0] != '"')
    ensures ReadRecord(EscapedRecord(cells) + rest) == Some((cells, rest))
    decreases |cells|
  {
    if |cells| == 1 {
      ReadRecordOfOne(cells, rest);
    } else {
      ReadEscapedRecord(cells[1..], rest);
      ReadRecordOfMore(cells, rest);
    }
  }

  lemma ReadRecordOfOne(cells: seq<string>, rest: string)
    requires |cells| == 1
    requires rest == [] || (rest[0] != ',' && rest[0] != '"')
    ensures ReadRecord(EscapedRecord(cells) + rest) == Some((cells, rest))
  {
    EscapedRecordCons(cells);
    assert EscapedRecord(cells) + rest == EscapedCell(cells[0]) + rest;
    ReadLastCell(cells[0], rest);
    assert [cells[0]] == cells;
  }

  lemma ReadRecordOfMore(cells: seq<string>, rest: string)
    requires |cells| > 1
    requires ReadRecord(EscapedRecord(cells[1..]) + rest) == Some((cells[1..], rest))
    ensures ReadRecord(EscapedRecord(cells) + rest) == Some((cells, rest))
  {
    var head, tail := EscapedCell(cells[0]), EscapedRecord(cells[1..]);
    EscapedRecordCons(cells);
    assert EscapedRecord(cells) == head + ("," + tail);
    CommaAssoc(head, tail, rest);
    ReadCellThenRecord(cells[0], tail + rest, cells[1..], rest);
    assert [cells[0]] + cells[1..] == cells;
  }

  lemma CommaAssoc(head: string, tail: string, rest: string)
    ensures head + ("," + tail) + rest == head + ("," + (tail + rest))
  {
  }

  lemma {:induction false} ReadEscapedRecords(rows: seq<seq<string>>)
    requires |rows| >= 1
    requires forall k :: 0 <= k < |rows| ==> |rows[k]| >= 1
    ensures ReadRecords(Join(Map(rows, EscapedRecord), "\r\n")) == Some(rows)
    decreases |rows|
  {
    var m := Map(rows, EscapedRecord);
    if |rows| == 1 {
      ReadEscapedRecord(rows[0], []);
      assert m[0] + [] == m[0];
      assert Join(m, "\r\n") == m[0];
      assert [rows[0]] == rows;
    } else {
      assert m[1..] == Map(rows[1..], EscapedRecord);
      var tail := Join(m[1..], "\r\n");
      ReadEscapedRecord(rows[0], "\r\n" + tail);
      assert Join(m, "\r\n") == m[0] + ("\r\n" + tail);
      ReadEscapedRecords(rows[1..]);
      assert ("\r\n" + tail)[2..] == tail;
      assert [rows[0]] + rows[1..] == rows;
    }
  }

  /**
   * The escaped export reads back exactly: the header names and every row's
   * cells, whatever the cells contain. The header names carry no comma or CR,
   * and every row has at least one cell.
   */
  lemma EscapedDocumentRoundTrip(header: seq<string>, rows: seq<seq<string>>)
    requires |header| >= 1
    requires forall k :: 0 <= k < |header| ==> ',' !in header[k] && '\r' !in header[k]
    requires |rows| >= 1
    requires forall k :: 0 <= k < |rows| ==> |rows[k]| >= 1
    ensures ParseDocument(EscapedDocument(header, rows)) == Some((header, rows))
  {
    var h := Join(header, ",");
    var recs := Map(rows, EscapedRecord);
    var body := Join(recs, "\r\n");
    var s := EscapedDocument(header, rows);
    assert ([h] + recs)[1..] == recs;
    assert s == h + "\r\n" + body;
    JoinAvoids(header, ",", '\r');
    assert s[..|h|] == h;
    assert s[|h|] == '\r';
    assert IndexOf(s, '\r') == Some(|h|);
    assert s[|h| + 2..] == body;
    ReadEscapedRecords(rows);
    SplitJoin(header, ',');
  }

  /** For cells without a quote character the two quoting styles agree. */
  lemma UnescapedIsEscapedWithoutQuotes(rows: seq<seq<string>>)
    requires forall k, j :: 0 <= k < |rows| && 0 <= j < |rows[k]| ==> '"' !in rows[k][j]
    ensures Map(rows, UnescapedRecord) == Map(rows, EscapedRecord)
  {
    forall k | 0 <= k < |rows| ensures UnescapedRecord(rows[k]) == EscapedRecord(rows[k]) {
      assert Map(rows[k], QuoteCell) == Map(rows[k], EscapedCell);
    }
  }

  /** The unescaped export reads back exactly as long as no cell contains a quote. */
  lemma UnescapedDocumentRoundTrip(header: seq<string>, rows: seq<seq<string>>)
    requires |header| >= 1
    requires forall k :: 0 <= k < |header| ==> ',' !in header[k] && '\r' !in header[k]
    requires |rows| >= 1
    requires forall k :: 0 <= k < |rows| ==> |rows[k]| >= 1
    requires forall k, j :: 0 <= k < |rows| && 0 <= j < |rows[k]| ==> '"' !in rows[k][j]
    ensures ParseDocument(UnescapedDocument(header, rows)) == Some((header, rows))
  {
    UnescapedIsEscapedWithoutQuotes(rows);
    EscapedDocumentRoundTrip(header, rows);
  }

  /**
   * A single quote inside a cell breaks the unescaped export: the cell `x"y`
   * under the header `A` is written as `"x"y"`, which ends the cell after `x`
   * and leaves text that is no record.
   */
  lemma UnescapedQuoteBreaksReading()
    ensures ParseDocument(UnescapedDocument(["A"], [["x\"y"]])) == None
  {
    var cell := "x\"y";
    var rec := "\"x\"y\"";
    assert QuoteCell(cell) == rec;
    assert Map([cell], QuoteCell) == [rec];
    assert UnescapedRecord([cell]) == rec;
    assert Map([[cell]], UnescapedRecord) == [rec];
    var s := "A\r\n" + rec;
    assert Join(["A"], ",") == "A";
    assert Join(["A"] + [rec], "\r\n") == s;
    assert UnescapedDocument(["A"], [[cell]]) == s;
    assert IndexOf(s, '\r') == Some(1);
    assert s[3..] == rec;
    var inner := "x\"y\"";
    assert rec[1..] == inner;
    assert inner[1..] == "\"y\"";
    assert ReadQuoted("\"y\"") == Some(([], "y\""));
    assert inner[0] == 'x';
    assert ['x'] + [] == "x";
    assert ReadQuoted(inner) == Some(("x", "y\""));
    assert ReadRecord(rec) == Some((["x"], "y\""));
  }
}

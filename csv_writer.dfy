/**
 * The `toCSV` serialiser the two export routes share, and the file reply the
 * export and template routes send. The routes differ only in their header
 * list; each row is an object keyed by those headers.
 */
module CsvWriter {
  import opened Base
  import opened Js

  /** A value of an export row object. */
  datatype Cell = Text(s: string) | Number(x: real) | Object

  /** An export row: its values keyed by column name. */
  type Row = map<string, Cell>

  /** What the file is: CSV text, or a workbook sheet built from the header list and the rows. */
  datatype Payload = CsvText(text: string) | Workbook(sheet: string, columns: seq<string>, rows: seq<Row>)

  /** A file response with its `Content-Type` and `Content-Disposition` headers. */
  datatype Download = Download(contentType: string, disposition: string, cacheControl: string, body: Payload)

  const CsvType: string := "text/csv; charset=utf-8"
  const XlsxType: string := "application/vnd.openxmlformats-officedocument.spreadsheetml.sheet"

  /** `searchParams.get('format') || 'csv'`: an absent or empty parameter means csv. */
  function Format(param: Option<string>): (f: string)
    ensures f != ""
    ensures param.Some? && param.value != "" ==> f == param.value
  {
    if param.Some? && param.value != "" then param.value else "csv"
  }

  /** `v.replace(/"/g, '""')` */
  function Escape(s: string): string
    decreases |s|
  {
    if s == [] then [] else (if s[0] == '"' then "\"\"" else [s[0]]) + Escape(s[1..])
  }

  /** Reads an escaped cell body back, a doubled quote as one quote; `None` at a lone quote. */
  function Unescape(t: string): Option<string>
    decreases |t|
  {
    if t == [] then Some("")
    else if t[0] != '"' then
      match Unescape(t[1..])
      case Some(u) => Some([t[0]] + u)
      case None => None
    else if |t| >= 2 && t[1] == '"' then
      match Unescape(t[2..])
      case Some(u) => Some("\"" + u)
      case None => None
    else None
  }

  /** One field of a line: a string quoted with its quotes doubled, anything else as `String(v)`. */
  function Encode(c: Cell): string {
    match c
    case Text(s) => "\"" + Escape(s) + "\""
    case Number(x) => NumberToString(x)
    case Object => "[object Object]"
  }

  /** `r[h] ?? ''`: a missing value is the empty string. */
  function Value(r: Row, h: string): Cell {
    if h in r then r[h] else Text("")
  }

  function Fields(headers: seq<string>, r: Row): (fields: seq<string>)
    ensures |fields| == |headers|
  {
    seq(|headers|, i requires 0 <= i < |headers| => Encode(Value(r, headers[i])))
  }

  function Line(headers: seq<string>, r: Row): string {
    Join(Fields(headers, r), ",")
  }

  function Body(headers: seq<string>, rows: seq<Row>): (lines: seq<string>)
    ensures |lines| == |rows|
  {
    seq(|rows|, i requires 0 <= i < |rows| => Line(headers, rows[i]))
  }

  /** `toCSV`: the header line, then one line per row, joined by newlines. */
  function ToCsv(headers: seq<string>, rows: seq<Row>): string {
    Join([Join(headers, ",")] + Body(headers, rows), "\n")
  }

  /** No string value of the row contains `c`. */
  predicate TextsAvoid(r: Row, c: char) {
    forall h :: h in r && r[h].Text? ==> c !in r[h].s
  }

  // -------------------------------------------------------------------- lemmas

  /** Un-doubling the quotes of an escaped string gives the string back. */
  lemma {:induction false} UnescapeEscape(s: string)
    ensures Unescape(Escape(s)) == Some(s)
    decreases |s|
  {
    if s != [] {
      UnescapeEscape(s[1..]);
      var t := Escape(s);
      if s[0] == '"' {
        assert t == "\"\"" + Escape(s[1..]);
        assert t[2..] == Escape(s[1..]);
      } else {
        assert t == [s[0]] + Escape(s[1..]);
        assert t[1..] == Escape(s[1..]);
      }
      assert [s[0]] + s[1..] == s;
    }
  }

  /** Whatever reads back was an escaped string: every quote in it is doubled. */
  lemma {:induction false} EscapeUnescape(t: string)
    requires Unescape(t).Some?
    ensures Escape(Unescape(t).value) == t
    decreases |t|
  {
    if t != [] {
      if t[0] != '"' {
        EscapeUnescape(t[1..]);
        var u := Unescape(t[1..]).value;
        assert ([t[0]] + u)[1..] == u;
        assert [t[0]] + t[1..] == t;
      } else {
        EscapeUnescape(t[2..]);
        var u := Unescape(t[2..]).value;
        assert ("\"" + u)[1..] == u;
        assert t == "\"\"" + t[2..];
      }
    }
  }

  /** Escaping adds no character other than quotes. */
  lemma {:induction false} EscapeAvoids(s: string, c: char)
    requires c != '"' && c !in s
    ensures c !in Escape(s)
    decreases |s|
  {
    if s != [] {
      EscapeAvoids(s[1..], c);
    }
  }

  /** A string field is its escaped text between two quotes, and the text reads back from between them. */
  lemma QuotedField(s: string)
    ensures var f := Encode(Text(s));
      |f| >= 2 && f[0] == '"' && f[|f| - 1] == '"' && Unescape(f[1..|f| - 1]) == Some(s)
  {
    var f := Encode(Text(s));
    assert f[1..|f| - 1] == Escape(s);
    UnescapeEscape(s);
  }

  /** A field contains a newline or a comma only when a string value does. */
  lemma FieldAvoids(c: Cell, ch: char)
    requires ch == '\n' || ch == ','
    requires c.Text? ==> ch !in c.s
    ensures ch !in Encode(c)
  {
    match c
    case Text(s) =>
      EscapeAvoids(s, ch);
    case Number(x) =>
      NumberChars(x);
    case Object =>
  }

  lemma LineAvoids(headers: seq<string>, r: Row, ch: char)
    requires ch == '\n' || ch == ','
    requires TextsAvoid(r, ch)
    ensures forall i :: 0 <= i < |headers| ==> ch !in Fields(headers, r)[i]
    ensures ch == '\n' ==> ch !in Line(headers, r)
  {
    forall i | 0 <= i < |headers|
      ensures ch !in Fields(headers, r)[i]
    {
      FieldAvoids(Value(r, headers[i]), ch);
    }
    if ch == '\n' {
      JoinAvoids(Fields(headers, r), ",", ch);
    }
  }

  /**
   * When no header and no string value holds a newline, the output has one
   * line for the headers and then exactly one line per row, in row order.
   */
  lemma CsvLines(headers: seq<string>, rows: seq<Row>)
    requires forall i :: 0 <= i < |headers| ==> '\n' !in headers[i]
    requires forall k :: 0 <= k < |rows| ==> TextsAvoid(rows[k], '\n')
    ensures Split(ToCsv(headers, rows), '\n') == [Join(headers, ",")] + Body(headers, rows)
    ensures |Split(ToCsv(headers, rows), '\n')| == |rows| + 1
  {
    var lines := [Join(headers, ",")] + Body(headers, rows);
    JoinAvoids(headers, ",", '\n');
    forall k | 0 <= k < |lines|
      ensures '\n' !in lines[k]
    {
      if k > 0 {
        LineAvoids(headers, rows[k - 1], '\n');
      }
    }
    SplitJoin(lines, '\n');
  }

  /**
   * When no string value holds a comma, splitting a line at its commas gives
   * one field per header, each the encoding of that header's value.
   */
  lemma LineFields(headers: seq<string>, r: Row)
    requires |headers| >= 1
    requires TextsAvoid(r, ',')
    ensures Split(Line(headers, r), ',') == Fields(headers, r)
    ensures |Split(Line(headers, r), ',')| == |headers|
  {
    LineAvoids(headers, r, ',');
    SplitJoin(Fields(headers, r), ',');
  }
}

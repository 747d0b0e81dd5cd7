// The CSV export of frontend/src/components/Reports.jsx: a header row and
// one row per project, every field in double quotes, fields joined by commas
// and rows by newlines. A quote-aware reader (section 2 of RFC 4180) is the
// partner the export is proved against.
module Reports {

  import opened Options
  import opened ProjectModel

  const Headers: seq<string> := [
    "Project Number", "Name", "Location", "System Type", "Size (kW)",
    "Clearance Status", "Installation Status", "Connection Status"]

  function DigitChar(d: nat): (c: char)
    requires d < 10
    ensures '0' <= c <= '9'
  {
    (48 + d) as char
  }

  function Digits(n: nat): (r: string)
    ensures |r| > 0 && forall i :: 0 <= i < |r| ==> '0' <= r[i] <= '9'
  {
    if n < 10 then [DigitChar(n)] else Digits(n / 10) + [DigitChar(n % 10)]
  }

  /** `${size}` for a whole number of kilowatts. */
  function Decimal(n: int): (r: string)
    ensures forall i :: 0 <= i < |r| ==> r[i] == '-' || '0' <= r[i] <= '9'
  {
    if n < 0 then "-" + Digits(-n) else Digits(n)
  }

  /** The number a string of decimal digits denotes. */
  function DigitsValue(s: string): int
    decreases |s|
  {
    if s == [] then 0 else 10 * DigitsValue(s[..|s| - 1]) + (s[|s| - 1] as int - '0' as int)
  }

  /** How JavaScript's `Number` reads an optionally signed digit string. */
  function ReadDecimal(s: string): int {
    if s != [] && s[0] == '-' then -DigitsValue(s[1..]) else DigitsValue(s)
  }

  lemma {:induction false} DigitsReadBack(n: nat)
    ensures DigitsValue(Digits(n)) == n
    ensures Digits(n)[0] != '0' || n == 0
    decreases n
  {
    if n >= 10 {
      DigitsReadBack(n / 10);
      var d := Digits(n);
      assert d[..|d| - 1] == Digits(n / 10);
      assert d[0] == Digits(n / 10)[0];
    }
  }

  /** `${size}` reads back as the size, has a minus sign exactly when the
      size is negative, and no leading zero. */
  lemma DecimalReadsBack(n: int)
    ensures ReadDecimal(Decimal(n)) == n
    ensures |Decimal(n)| > 0 && (Decimal(n)[0] == '-' <==> n < 0)
    ensures var d := if n < 0 then Decimal(n)[1..] else Decimal(n);
      |d| > 0 && (d[0] == '0' ==> n == 0)
  {
    if n < 0 {
      DigitsReadBack(-n);
      assert Decimal(n)[1..] == Digits(-n);
    } else {
      DigitsReadBack(n);
    }
  }

  /** The eight cells of a project's row, in header order. */
  function Row(p: Project): seq<string> {
    [p.projectNumber, p.name, p.location, p.systemType, Decimal(p.size),
     p.clearance.status, p.installation.status, p.connection.status]
  }

  function RowsOf(ps: seq<Project>): (rows: seq<seq<string>>)
    ensures |rows| == |ps| && forall i :: 0 <= i < |ps| ==> rows[i] == Row(ps[i])
  {
    if ps == [] then [] else [Row(ps[0])] + RowsOf(ps[1..])
  }

  /** `[headers, ...csvData]`. */
  function Table(ps: seq<Project>): seq<seq<string>> {
    [Headers] + RowsOf(ps)
  }

  function DoubleQuotes(f: string): string {
    if f == [] then [] else (if f[0] == '"' then "\"\"" else [f[0]]) + DoubleQuotes(f[1..])
  }

  /** A field between double quotes; with `doubled`, each quote inside is
      written twice first, as RFC 4180 asks. */
  function Quote(f: string, doubled: bool): string {
    "\"" + (if doubled then DoubleQuotes(f) else f) + "\""
  }

  /** `parts.join(sep)`. */
  function Join(sep: char, parts: seq<string>): string {
    if |parts| == 0 then ""
    else if |parts| == 1 then parts[0]
    else parts[0] + [sep] + Join(sep, parts[1..])
  }

  /** `row.map(field => ...)`. */
  function QuoteAll(row: seq<string>, doubled: bool): (r: seq<string>)
    ensures |r| == |row| && forall i :: 0 <= i < |row| ==> r[i] == Quote(row[i], doubled)
  {
    if row == [] then [] else [Quote(row[0], doubled)] + QuoteAll(row[1..], doubled)
  }

  function Line(row: seq<string>, doubled: bool): string {
    Join(',', QuoteAll(row, doubled))
  }

  function LinesOf(rows: seq<seq<string>>, doubled: bool): (r: seq<string>)
    ensures |r| == |rows| && forall i :: 0 <= i < |rows| ==> r[i] == Line(rows[i], doubled)
  {
    if rows == [] then [] else [Line(rows[0], doubled)] + LinesOf(rows[1..], doubled)
  }

  function Csv(rows: seq<seq<string>>, doubled: bool): string {
    Join('\n', LinesOf(rows, doubled))
  }

  /** `csvContent` as the export builds it. */
  function ExportCsv(ps: seq<Project>): string {
    Csv(Table(ps), false)
  }

  /** The same export with embedded quotes doubled. */
  function ExportCsvRfc(ps: seq<Project>): string {
    Csv(Table(ps), true)
  }

  // ------------------------------------------------------------ the reader

  /** The rest of a quoted field after its opening quote: its content, with
      `""` read as one quote, and what follows its closing quote. */
  function QuotedBody(s: string): (r: Option<(string, string)>)
    ensures r.Some? ==> |r.value.1| < |s|
  {
    if s == [] then None
    else if s[0] == '"' then
      if |s| >= 2 && s[1] == '"' then
        match QuotedBody(s[2..])
        case None => None
        case Some((c, rest)) => Some(("\"" + c, rest))
      else Some(("", s[1..]))
    else
      match QuotedBody(s[1..])
      case None => None
      case Some((c, rest)) => Some(([s[0]] + c, rest))
  }

  /** Reads records of quoted fields, separated by commas within a record and
      by newlines between records. */
  function ParseRecords(s: string): (r: Option<seq<seq<string>>>)
    ensures r.Some? ==> |r.value| > 0 && |r.value[0]| > 0
    decreases |s|
  {
    if s == [] || s[0] != '"' then None
    else
      match QuotedBody(s[1..])
      case None => None
      case Some((f, rest)) =>
        if rest == [] then Some([[f]])
        else if rest[0] == ',' then
          match ParseRecords(rest[1..])
          case None => None
          case Some(rs) => Some([[f] + rs[0]] + rs[1..])
        else if rest[0] == '\n' then
          match ParseRecords(rest[1..])
          case None => None
          case Some(rs) => Some([[f]] + rs)
        else None
  }

  /** Splits text at every newline. */
  function SplitLines(s: string): (r: seq<string>)
    ensures |r| > 0
  {
    if s == [] then [""]
    else
      var rest := SplitLines(s[1..]);
      if s[0] == '\n' then [""] + rest else [[s[0]] + rest[0]] + rest[1..]
  }

  // ------------------------------------------------------------ the proofs

  /** No cell of any row contains `c`. */
  predicate Free(rows: seq<seq<string>>, c: char) {
    forall i, j :: 0 <= i < |rows| && 0 <= j < |rows[i]| ==> c !in rows[i][j]
  }

  /** Every record has at least one field. */
  predicate NonEmptyRows(rows: seq<seq<string>>) {
    forall i :: 0 <= i < |rows| ==> |rows[i]| > 0
  }

  lemma UnfoldClose(rest: string)
    requires rest == [] || rest[0] != '"'
    ensures QuotedBody("\"" + rest) == Some(("", rest))
  {
    assert ("\"" + rest)[1..] == rest;
  }

  lemma UnfoldPair(t: string)
    ensures QuotedBody("\"\"" + t) ==
      match QuotedBody(t)
      case None => None
      case Some((c, r)) => Some(("\"" + c, r))
  {
    assert ("\"\"" + t)[2..] == t;
  }

  lemma UnfoldChar(ch: char, t: string)
    requires ch != '"'
    ensures QuotedBody([ch] + t) ==
      match QuotedBody(t)
      case None => None
      case Some((c, r)) => Some(([ch] + c, r))
  {
    assert ([ch] + t)[1..] == t;
  }

  /** A quote-free field is read back whole, and whatever follows its
      closing quote is left for the next step. */
  lemma {:induction false} PlainFieldRoundTrip(f: string, rest: string)
    requires '"' !in f
    requires rest == [] || rest[0] != '"'
    ensures QuotedBody(f + "\"" + rest) == Some((f, rest))
  {
    if f == [] {
      assert f + "\"" + rest == "\"" + rest;
      UnfoldClose(rest);
    } else {
      PlainFieldRoundTrip(f[1..], rest);
      assert f + "\"" + rest == [f[0]] + (f[1..] + "\"" + rest);
      UnfoldChar(f[0], f[1..] + "\"" + rest);
      assert [f[0]] + f[1..] == f;
    }
  }

  /** Any field with its quotes doubled is read back whole. */
  lemma {:induction false} DoubledFieldRoundTrip(f: string, rest: string)
    requires rest == [] || rest[0] != '"'
    ensures QuotedBody(DoubleQuotes(f) + "\"" + rest) == Some((f, rest))
  {
    if f == [] {
      assert DoubleQuotes(f) + "\"" + rest == "\"" + rest;
      UnfoldClose(rest);
    } else {
      DoubledFieldRoundTrip(f[1..], rest);
      var t := DoubleQuotes(f[1..]) + "\"" + rest;
      if f[0] == '"' {
        assert DoubleQuotes(f) + "\"" + rest == "\"\"" + t;
        UnfoldPair(t);
        assert "\"" + f[1..] == f;
      } else {
        assert DoubleQuotes(f) + "\"" + rest == [f[0]] + t;
        UnfoldChar(f[0], t);
        assert [f[0]] + f[1..] == f;
      }
    }
  }

  lemma FieldRoundTrip(f: string, rest: string, doubled: bool)
    requires doubled || '"' !in f
    requires rest == [] || rest[0] != '"'
    ensures QuotedBody((if doubled then DoubleQuotes(f) else f) + "\"" + rest) == Some((f, rest))
  {
    if doubled {
      DoubledFieldRoundTrip(f, rest);
    } else {
      PlainFieldRoundTrip(f, rest);
    }
  }

  lemma ParseLast(s: string, f: string)
    requires |s| > 0 && s[0] == '"' && QuotedBody(s[1..]) == Some((f, []))
    ensures ParseRecords(s) == Some([[f]])
  {
  }

  lemma ParseComma(s: string, f: string, rest: string)
    requires |s| > 0 && s[0] == '"' && QuotedBody(s[1..]) == Some((f, rest))
    requires |rest| > 0 && rest[0] == ','
    ensures ParseRecords(s) ==
      match ParseRecords(rest[1..])
      case None => None
      case Some(rs) => Some([[f] + rs[0]] + rs[1..])
  {
  }

  lemma ParseNewline(s: string, f: string, rest: string)
    requires |s| > 0 && s[0] == '"' && QuotedBody(s[1..]) == Some((f, rest))
    requires |rest| > 0 && rest[0] == '\n'
    ensures ParseRecords(s) ==
      match ParseRecords(rest[1..])
      case None => None
      case Some(rs) => Some([[f]] + rs)
  {
  }

  /** What the reader sees at a quoted field followed by `rest`. */
  lemma FieldThen(f: string, rest: string, doubled: bool)
    requires doubled || '"' !in f
    requires rest == [] || rest[0] != '"'
    ensures var s := Quote(f, doubled) + rest;
      |s| > 0 && s[0] == '"' && QuotedBody(s[1..]) == Some((f, rest))
  {
    var body := if doubled then DoubleQuotes(f) else f;
    var s := Quote(f, doubled) + rest;
    assert s == "\"" + (body + "\"" + rest);
    assert s[1..] == body + "\"" + rest;
    FieldRoundTrip(f, rest, doubled);
  }

  lemma LineFront(row: seq<string>, doubled: bool)
    requires |row| > 0
    ensures |row| == 1 ==> Line(row, doubled) == Quote(row[0], doubled)
    ensures |row| > 1 ==> Line(row, doubled) == Quote(row[0], doubled) + ("," + Line(row[1..], doubled))
  {
    assert QuoteAll(row, doubled)[1..] == QuoteAll(row[1..], doubled);
  }

  /** A line read on its own gives back its row. */
  lemma {:induction false} LineRoundTrip(row: seq<string>, doubled: bool)
    requires |row| > 0
    requires doubled || forall j :: 0 <= j < |row| ==> '"' !in row[j]
    ensures ParseRecords(Line(row, doubled)) == Some([row])
    decreases |row|
  {
    var f := row[0];
    LineFront(row, doubled);
    if |row| == 1 {
      assert Line(row, doubled) == Quote(f, doubled) + [];
      FieldThen(f, [], doubled);
      ParseLast(Line(row, doubled), f);
      assert row == [f];
    } else {
      var rest := "," + Line(row[1..], doubled);
      FieldThen(f, rest, doubled);
      LineRoundTrip(row[1..], doubled);
      assert rest[1..] == Line(row[1..], doubled);
      ParseComma(Line(row, doubled), f, rest);
      var rs := [row[1..]];
      assert rs[0] == row[1..] && rs[1..] == [];
      assert [f] + row[1..] == row;
      assert [[f] + rs[0]] + rs[1..] == [row];
    }
  }

  /** A record read in front of the records `t`. */
  function PrependRow(row: seq<string>, t: Option<seq<seq<string>>>): (r: Option<seq<seq<string>>>)
    ensures r.Some? <==> t.Some?
    ensures r.Some? ==> |r.value| > 0 && r.value[0] == row && r.value[1..] == t.value
  {
    match t
    case None => None
    case Some(rs) => Some([row] + rs)
  }

  /** A line followed by a newline gives back its row in front of whatever
      the rest gives. */
  lemma {:induction false} LineThenMore(row: seq<string>, tail: string, doubled: bool)
    requires |row| > 0
    requires doubled || forall j :: 0 <= j < |row| ==> '"' !in row[j]
    requires |tail| > 0 && tail[0] == '\n'
    ensures ParseRecords(Line(row, doubled) + tail) == PrependRow(row, ParseRecords(tail[1..]))
    decreases |row|
  {
    var f := row[0];
    var s := Line(row, doubled) + tail;
    LineFront(row, doubled);
    if |row| == 1 {
      assert s == Quote(f, doubled) + tail;
      FieldThen(f, tail, doubled);
      ParseNewline(s, f, tail);
      assert row == [f];
    } else {
      LineThenMore(row[1..], tail, doubled);
      FieldBeforeLine(row, tail, doubled);
    }
  }

  /** A field and a comma in front of text that reads as `row1` ahead of
      the records `t` read as `[f] + row1` ahead of `t`. */
  lemma ConsField(s: string, f: string, rest: string, row1: seq<string>, t: Option<seq<seq<string>>>)
    requires |s| > 0 && s[0] == '"' && QuotedBody(s[1..]) == Some((f, rest))
    requires |rest| > 0 && rest[0] == ','
    requires ParseRecords(rest[1..]) == PrependRow(row1, t)
    ensures ParseRecords(s) == PrependRow([f] + row1, t)
  {
    ParseComma(s, f, rest);
    match t
    case None =>
    case Some(rs) =>
      var q := [row1] + rs;
      assert q[0] == row1 && q[1..] == rs;
  }

  /** What the reader sees at the start of a line of several fields. */
  lemma FirstFieldOfLine(row: seq<string>, tail: string, doubled: bool)
    requires |row| > 1
    requires doubled || forall j :: 0 <= j < |row| ==> '"' !in row[j]
    ensures var s := Line(row, doubled) + tail;
      |s| > 0 && s[0] == '"' && QuotedBody(s[1..]) == Some((row[0], "," + (Line(row[1..], doubled) + tail)))
  {
    var f := row[0];
    var rest := "," + (Line(row[1..], doubled) + tail);
    LineFront(row, doubled);
    assert Line(row, doubled) + tail == Quote(f, doubled) + rest;
    FieldThen(f, rest, doubled);
  }

  /** The step of `LineThenMore`: a field and a comma in front of a line
      whose reading is known. */
  lemma FieldBeforeLine(row: seq<string>, tail: string, doubled: bool)
    requires |row| > 1
    requires doubled || forall j :: 0 <= j < |row| ==> '"' !in row[j]
    requires |tail| > 0 && tail[0] == '\n'
    requires ParseRecords(Line(row[1..], doubled) + tail) == PrependRow(row[1..], ParseRecords(tail[1..]))
    ensures ParseRecords(Line(row, doubled) + tail) == PrependRow(row, ParseRecords(tail[1..]))
  {
    var f := row[0];
    var rest := "," + (Line(row[1..], doubled) + tail);
    var s := Line(row, doubled) + tail;
    FirstFieldOfLine(row, tail, doubled);
    assert rest[1..] == Line(row[1..], doubled) + tail;
    ConsField(s, f, rest, row[1..], ParseRecords(tail[1..]));
    assert [f] + row[1..] == row;
  }

  /** The reader recovers the table the writer wrote, provided every cell's
      quotes are doubled or there are none. */
  lemma {:induction false} CsvRoundTrip(rows: seq<seq<string>>, doubled: bool)
    requires |rows| > 0 && NonEmptyRows(rows)
    requires doubled || Free(rows, '"')
    ensures ParseRecords(Csv(rows, doubled)) == Some(rows)
    decreases |rows|
  {
    assert doubled || forall j :: 0 <= j < |rows[0]| ==> '"' !in rows[0][j];
    if |rows| == 1 {
      assert LinesOf(rows, doubled) == [Line(rows[0], doubled)];
      LineRoundTrip(rows[0], doubled);
      assert rows == [rows[0]];
    } else {
      assert doubled || Free(rows[1..], '"') by {
        if !doubled {
          forall i, j | 0 <= i < |rows[1..]| && 0 <= j < |rows[1..][i]|
            ensures '"' !in rows[1..][i][j]
          {
            assert rows[1..][i] == rows[i + 1];
          }
        }
      }
      assert LinesOf(rows, doubled)[1..] == LinesOf(rows[1..], doubled);
      var tail := "\n" + Csv(rows[1..], doubled);
      assert Csv(rows, doubled) == Line(rows[0], doubled) + tail;
      CsvRoundTrip(rows[1..], doubled);
      LineThenMore(rows[0], tail, doubled);
      assert tail[1..] == Csv(rows[1..], doubled);
      assert [rows[0]] + rows[1..] == rows;
    }
  }

  lemma {:induction false} SplitNewlineFree(a: string, b: string)
    requires '\n' !in a
    ensures SplitLines(a) == [a]
    ensures SplitLines(a + "\n" + b) == [a] + SplitLines(b)
  {
    if a == [] {
      assert ("\n" + b)[1..] == b;
    } else {
      SplitNewlineFree(a[1..], b);
      assert (a + "\n" + b)[1..] == a[1..] + "\n" + b;
      assert [a[0]] + a[1..] == a;
    }
  }

  /** Joining newline-free lines with newlines and splitting again gives
      the lines back. */
  lemma {:induction false} SplitJoin(lines: seq<string>)
    requires |lines| > 0
    requires forall i :: 0 <= i < |lines| ==> '\n' !in lines[i]
    ensures SplitLines(Join('\n', lines)) == lines
  {
    if |lines| == 1 {
      SplitNewlineFree(lines[0], "");
    } else {
      SplitJoin(lines[1..]);
      SplitNewlineFree(lines[0], Join('\n', lines[1..]));
      assert [lines[0]] + lines[1..] == lines;
    }
  }

  lemma {:induction false} JoinAvoids(sep: char, parts: seq<string>, c: char)
    requires c != sep
    requires forall i :: 0 <= i < |parts| ==> c !in parts[i]
    ensures c !in Join(sep, parts)
  {
    if |parts| > 1 {
      JoinAvoids(sep, parts[1..], c);
    }
  }

  lemma LineAvoidsNewline(row: seq<string>, doubled: bool)
    requires forall j :: 0 <= j < |row| ==> '\n' !in row[j]
    ensures '\n' !in Line(row, doubled)
  {
    forall j | 0 <= j < |row|
      ensures '\n' !in Quote(row[j], doubled)
    {
      if doubled {
        DoublingAvoids(row[j], '\n');
      }
    }
    JoinAvoids(',', QuoteAll(row, doubled), '\n');
  }

  lemma {:induction false} DoublingAvoids(f: string, c: char)
    requires c != '"' && c !in f
    ensures c !in DoubleQuotes(f)
  {
    if f != [] {
      DoublingAvoids(f[1..], c);
    }
  }

  lemma HeadersPlain()
    ensures forall j :: 0 <= j < |Headers| ==> '"' !in Headers[j] && '\n' !in Headers[j]
  {
  }

  /** A project's cells hold neither a quote nor a newline when its text
      fields do not: the size is written in digits. */
  lemma RowFree(p: Project, c: char)
    requires c == '"' || c == '\n'
    requires c !in p.projectNumber && c !in p.name && c !in p.location && c !in p.systemType
    requires c !in p.clearance.status && c !in p.installation.status && c !in p.connection.status
    ensures forall j :: 0 <= j < |Row(p)| ==> c !in Row(p)[j]
  {
    var d := Decimal(p.size);
    assert forall i :: 0 <= i < |d| ==> d[i] != c;
  }

  /** The project fields that end up in the report. */
  predicate TextFree(p: Project, c: char) {
    && c !in p.projectNumber && c !in p.name && c !in p.location && c !in p.systemType
    && c !in p.clearance.status && c !in p.installation.status && c !in p.connection.status
  }

  /** The table is the header row and then one row per project, in order,
      and every row has the eight cells of the header. */
  lemma TableShape(ps: seq<Project>)
    ensures NonEmptyRows(Table(ps)) && |Table(ps)| == |ps| + 1
    ensures Table(ps)[0] == Headers
    ensures forall i :: 0 <= i < |ps| ==> Table(ps)[i + 1] == Row(ps[i])
    ensures forall i :: 0 <= i < |Table(ps)| ==> |Table(ps)[i]| == |Headers| == 8
  {
    var rows := RowsOf(ps);
    assert Table(ps) == [Headers] + rows;
    forall i | 0 <= i < |ps|
      ensures Table(ps)[i + 1] == Row(ps[i]) && |Table(ps)[i + 1]| == 8
    {
      assert Table(ps)[i + 1] == rows[i];
    }
  }

  lemma TableFree(ps: seq<Project>, c: char)
    requires c == '"' || c == '\n'
    requires forall i :: 0 <= i < |ps| ==> TextFree(ps[i], c)
    ensures Free(Table(ps), c) && NonEmptyRows(Table(ps)) && |Table(ps)| == |ps| + 1
  {
    HeadersPlain();
    forall i | 0 <= i < |ps| {
      RowFree(ps[i], c);
    }
    forall i, j | 0 <= i < |Table(ps)| && 0 <= j < |Table(ps)[i]|
      ensures c !in Table(ps)[i][j]
    {
      if i > 0 {
        assert Table(ps)[i] == Row(ps[i - 1]);
      } else {
        assert Table(ps)[i] == [Headers][0];
      }
    }
  }

  /** The report starts with the header line, whatever the projects hold. */
  lemma HeaderFirst(ps: seq<Project>)
    ensures Line(Headers, false) <= ExportCsv(ps)
    ensures ps == [] ==> ExportCsv(ps) == Line(Headers, false)
  {
    var lines := LinesOf(Table(ps), false);
    assert lines[0] == Line(Headers, false);
  }

  /** Without newlines in the projects' fields the report has one line for
      the header and then one per project, in input order, each the eight
      quoted cells joined by commas. */
  lemma ExportLines(ps: seq<Project>)
    requires forall i :: 0 <= i < |ps| ==> TextFree(ps[i], '\n')
    ensures SplitLines(ExportCsv(ps)) == LinesOf(Table(ps), false)
    ensures |SplitLines(ExportCsv(ps))| == |ps| + 1
    ensures SplitLines(ExportCsv(ps))[0] == Line(Headers, false)
    ensures forall i :: 0 <= i < |ps| ==> SplitLines(ExportCsv(ps))[i + 1] == Line(Row(ps[i]), false)
  {
    TableFree(ps, '\n');
    var rows := Table(ps);
    forall i | 0 <= i < |rows|
      ensures '\n' !in LinesOf(rows, false)[i]
    {
      forall j | 0 <= j < |rows[i]|
        ensures '\n' !in rows[i][j]
      {
      }
      LineAvoidsNewline(rows[i], false);
    }
    SplitJoin(LinesOf(rows, false));
  }

  /** Without quotes in the projects' fields a quote-aware reader gets the
      header and every project's eight cells back. */
  lemma ExportRoundTrip(ps: seq<Project>)
    requires forall i :: 0 <= i < |ps| ==> TextFree(ps[i], '"')
    ensures ParseRecords(ExportCsv(ps)) == Some(Table(ps))
  {
    TableFree(ps, '"');
    CsvRoundTrip(Table(ps), false);
  }

  /** A field opened as `"A"` followed by `1` is closed early and the
      reader stops at the `1`. */
  lemma QuoteClosesEarly(more: string)
    ensures ParseRecords("\"A\"1\"" + more) == None
  {
    var s := "\"A\"1\"" + more;
    assert s[1..] == ['A'] + ("\"" + ("1\"" + more));
    UnfoldClose("1\"" + more);
    UnfoldChar('A', "\"" + ("1\"" + more));
  }

  lemma CsvFront(rows: seq<seq<string>>, doubled: bool)
    requires |rows| > 0
    ensures |rows| == 1 ==> Csv(rows, doubled) == Line(rows[0], doubled)
    ensures |rows| > 1 ==> Csv(rows, doubled) == Line(rows[0], doubled) + ("\n" + Csv(rows[1..], doubled))
  {
    assert LinesOf(rows, doubled)[1..] == LinesOf(rows[1..], doubled);
  }

  lemma ExportOne(p: Project)
    ensures ExportCsv([p]) == Line(Headers, false) + ("\n" + Line(Row(p), false))
  {
    var rows := Table([p]);
    assert rows[1..] == RowsOf([p]) == [Row(p)];
    CsvFront(rows, false);
    CsvFront(rows[1..], false);
  }

  /** A second line the reader cannot read spoils the whole text. */
  lemma SecondLineSpoils(head: seq<string>, second: string)
    requires |head| > 0 && forall j :: 0 <= j < |head| ==> '"' !in head[j]
    requires ParseRecords(second) == None
    ensures ParseRecords(Line(head, false) + ("\n" + second)) == None
  {
    LineThenMore(head, "\n" + second, false);
    assert ("\n" + second)[1..] == second;
  }

  /** The line of a project numbered `A"1` cannot be read. */
  lemma BrokenNumberLine(p: Project)
    requires p.projectNumber == "A\"1"
    ensures ParseRecords(Line(Row(p), false)) == None
  {
    var more := "," + Line(Row(p)[1..], false);
    LineFront(Row(p), false);
    assert Row(p)[0] == "A\"1";
    assert Quote("A\"1", false) == "\"A\"1\"";
    assert Line(Row(p), false) == "\"A\"1\"" + more;
    QuoteClosesEarly(more);
  }

  /** A quote inside a field closes the field early: the reader meets a
      character that is neither a comma nor a newline and gives up. */
  lemma UndoubledQuoteBreaksRoundTrip(p: Project)
    requires p.projectNumber == "A\"1"
    ensures ParseRecords(ExportCsv([p])) == None
  {
    ExportOne(p);
    BrokenNumberLine(p);
    HeadersPlain();
    SecondLineSpoils(Headers, Line(Row(p), false));
  }

  /** With quotes doubled the reader gets every table back, whatever the
      projects hold, newlines and commas included. */
  lemma RfcRoundTrip(ps: seq<Project>)
    ensures ParseRecords(ExportCsvRfc(ps)) == Some(Table(ps))
  {
    TableShape(ps);
    CsvRoundTrip(Table(ps), true);
  }
}

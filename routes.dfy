/** The request-handling logic of the feedback routes: the CSV export, the
    `days` default of the trends route, and the POST and PATCH handlers. The
    feedback and customer store behind them is abstract: what each store
    call answers, or whether it throws, is a parameter. */
module Routes {
  import opened Wrappers
  import opened Js
  import opened SentimentAnalysis

  /** A stored feedback record as the export reads it. */
  datatype Feedback = Feedback(
    id: int, customerName: string, customerEmail: Option<string>, content: string,
    sentiment: Sentiment, confidence: real, rating: Option<int>, source: string,
    createdAt: int, isResponded: bool)

  // ---------------------------------------------------------------------
  // CSV export

  const Headers: seq<string> :=
    ["ID", "Customer Name", "Email", "Content", "Sentiment", "Confidence",
     "Rating", "Source", "Date", "Responded"]

  /** `s.replace(/"/g, '""')`: every double quote doubled. */
  function EscapeQuotes(s: string): (r: string)
    ensures |r| >= |s|
  {
    if s == [] then []
    else if s[0] == '"' then "\"\"" + EscapeQuotes(s[1..])
    else [s[0]] + EscapeQuotes(s[1..])
  }

  /** The Content field: the escaped text between double quotes. */
  function QuoteField(s: string): (r: string)
    ensures |r| >= 2 && r[0] == '"' && r[|r| - 1] == '"'
  {
    "\"" + EscapeQuotes(s) + "\""
  }

  /** A reader's inverse of `EscapeQuotes`: every `""` halved; `None` on a
      double quote that is not doubled. */
  function UnescapeQuotes(s: string): Option<string> {
    if s == [] then Some([])
    else if s[0] != '"' then
      var rest := UnescapeQuotes(s[1..]);
      if rest.None? then None else Some([s[0]] + rest.value)
    else if |s| >= 2 && s[1] == '"' then
      var rest := UnescapeQuotes(s[2..]);
      if rest.None? then None else Some("\"" + rest.value)
    else None
  }

  /** A reader's view of a quoted field: strip the outer quotes and halve
      the inner ones. */
  function UnquoteField(f: string): Option<string> {
    if |f| >= 2 && f[0] == '"' && f[|f| - 1] == '"' then UnescapeQuotes(f[1..|f| - 1])
    else None
  }

  lemma {:induction false} UnescapeEscape(s: string)
    ensures UnescapeQuotes(EscapeQuotes(s)) == Some(s)
  {
    if s != [] {
      UnescapeEscape(s[1..]);
      var e := EscapeQuotes(s);
      assert s == [s[0]] + s[1..];
      if s[0] == '"' {
        assert e[2..] == EscapeQuotes(s[1..]);
      } else {
        assert e == [s[0]] + EscapeQuotes(s[1..]);
        assert e[0] == s[0] && e[1..] == EscapeQuotes(s[1..]);
      }
    }
  }

  /** Removing the outer quotes and halving `""` recovers the content. */
  lemma ContentRoundTrip(s: string)
    ensures UnquoteField(QuoteField(s)) == Some(s)
  {
    var f := QuoteField(s);
    assert f[1..|f| - 1] == EscapeQuotes(s);
    UnescapeEscape(s);
  }

  lemma {:induction false} EscapeAvoids(s: string, c: char)
    requires c != '"' && c !in s
    ensures c !in EscapeQuotes(s)
  {
    if s != [] {
      EscapeAvoids(s[1..], c);
    }
  }

  /** `value || ''` for a text */
  function OrEmpty(s: Option<string>): (r: string)
    ensures r == "" <==> s.None? || s == Some("")
    ensures s.Some? ==> r == s.value
  {
    if s.None? then "" else s.value
  }

  /** The ten fields of one record's line. `numberText` is JavaScript's
      text for a number and `isoDate` is `new Date(ms).toISOString()`; both
      are parameters. */
  function RowFields(item: Feedback, numberText: real -> string, isoDate: int -> string): (r: seq<string>)
    ensures |r| == |Headers|
    ensures r[0] == IntText(item.id) && r[1] == item.customerName
    ensures r[2] == OrEmpty(item.customerEmail)
    ensures r[2] == "" <==> item.customerEmail.None? || item.customerEmail == Some("")
    ensures r[3] == QuoteField(item.content)
    ensures r[4] == Name(item.sentiment) && r[5] == numberText(item.confidence)
    ensures r[6] == "" <==> item.rating.None? || item.rating == Some(0)
    ensures item.rating.Some? && item.rating != Some(0) ==> r[6] == IntText(item.rating.value)
    ensures r[7] == item.source && r[8] == isoDate(item.createdAt)
    ensures r[9] == (if item.isResponded then "Yes" else "No")
  {
    [ IntText(item.id),
      item.customerName,
      OrEmpty(item.customerEmail),
      QuoteField(item.content),
      Name(item.sentiment),
      numberText(item.confidence),
      if item.rating.None? || item.rating == Some(0) then "" else IntText(item.rating.value),
      item.source,
      isoDate(item.createdAt),
      if item.isResponded then "Yes" else "No" ]
  }

  /** The first line: the headers joined by commas. It splits on `,` into
      exactly the ten headers, in order. */
  function HeaderLine(): (h: string)
    ensures Split(h, ',') == Headers
  {
    SplitJoin(Headers, ',');
    Join(Headers, ',')
  }

  /** One record's line: its fields joined by commas. When no field holds
      a comma, splitting the line on `,` gives the fields back. When only
      the quoted Content may hold commas, line breaks or quotes, a CSV
      reader finds the ten cells, Content as stored. */
  function Row(item: Feedback, numberText: real -> string, isoDate: int -> string): (r: string)
    ensures (forall i :: 0 <= i < |Headers| ==> ',' !in RowFields(item, numberText, isoDate)[i])
            ==> Split(r, ',') == RowFields(item, numberText, isoDate)
    ensures PlainFields(item, numberText, isoDate) ==> ReadRecords(r) == [Cells(item, numberText, isoDate)]
  {
    var fields := RowFields(item, numberText, isoDate);
    var r := Join(fields, ',');
    assert (forall i :: 0 <= i < |fields| ==> ',' !in fields[i]) ==> Split(r, ',') == fields by {
      if forall i :: 0 <= i < |fields| ==> ',' !in fields[i] {
        SplitJoin(fields, ',');
      }
    }
    assert PlainFields(item, numberText, isoDate) ==> ReadRecords(r) == [Cells(item, numberText, isoDate)] by {
      if PlainFields(item, numberText, isoDate) {
        ReadRow(item, numberText, isoDate);
      }
    }
    r
  }

  /** `[header, ...rows].map(row => row.join(','))`: the header line
      followed by one line per record, in store order. The header row is a
      parameter so that reasoning about the lines does not unfold the ten
      header texts; `ExportCsv` passes `Headers`. */
  function CsvLines(header: seq<string>, items: seq<Feedback>, numberText: real -> string, isoDate: int -> string)
    : (lines: seq<string>)
    ensures |lines| == |items| + 1
    ensures lines[0] == Join(header, ',')
  {
    [Join(header, ',')] + seq(|items|, i requires 0 <= i < |items| => Row(items[i], numberText, isoDate))
  }

  /** The exported document: the lines joined by `\n`. When no field holds
      a line break, splitting it on `\n` gives back exactly those lines.
      When only the quoted Content may hold commas, line breaks or quotes,
      a CSV reader finds the header record and then each record's ten
      cells, in store order. */
  function ExportCsv(items: seq<Feedback>, numberText: real -> string, isoDate: int -> string): (r: string)
    ensures (forall i :: 0 <= i < |items| ==> SingleLine(items[i], numberText, isoDate))
            ==> Split(r, '\n') == CsvLines(Headers, items, numberText, isoDate)
    ensures (forall i :: 0 <= i < |items| ==> PlainFields(items[i], numberText, isoDate))
            ==> ReadRecords(r) == Table(items, numberText, isoDate)
  {
    var lines := CsvLines(Headers, items, numberText, isoDate);
    var r := Join(lines, '\n');
    assert (forall i :: 0 <= i < |items| ==> SingleLine(items[i], numberText, isoDate)) ==> Split(r, '\n') == lines by {
      if forall i :: 0 <= i < |items| ==> SingleLine(items[i], numberText, isoDate) {
        HeadersSingleLine();
        CsvLinesSingle(Headers, items, numberText, isoDate);
        SplitJoin(lines, '\n');
      }
    }
    assert (forall i :: 0 <= i < |items| ==> PlainFields(items[i], numberText, isoDate))
           ==> ReadRecords(r) == Table(items, numberText, isoDate) by {
      if forall i :: 0 <= i < |items| ==> PlainFields(items[i], numberText, isoDate) {
        ReadExport(items, numberText, isoDate);
      }
    }
    r
  }

  lemma HeadersSingleLine()
    ensures forall i :: 0 <= i < |Headers| ==> '\n' !in Headers[i]
  {
  }

  /** No field the record contributes holds a line break. */
  predicate SingleLine(item: Feedback, numberText: real -> string, isoDate: int -> string) {
    && '\n' !in item.customerName
    && (item.customerEmail.Some? ==> '\n' !in item.customerEmail.value)
    && '\n' !in item.content
    && '\n' !in numberText(item.confidence)
    && '\n' !in item.source
    && '\n' !in isoDate(item.createdAt)
  }

  lemma IntTextSingleLine(n: int)
    ensures '\n' !in IntText(n)
  {
    var s := IntText(n);
    forall i | 0 <= i < |s|
      ensures s[i] != '\n'
    {
    }
  }

  lemma RowSingleLine(item: Feedback, numberText: real -> string, isoDate: int -> string)
    requires SingleLine(item, numberText, isoDate)
    ensures '\n' !in Row(item, numberText, isoDate)
  {
    var r := RowFields(item, numberText, isoDate);
    IntTextSingleLine(item.id);
    if item.rating.Some? {
      IntTextSingleLine(item.rating.value);
    }
    EscapeAvoids(item.content, '\n');
    assert QuoteField(item.content) == "\"" + EscapeQuotes(item.content) + "\"";
    assert '\n' !in Name(item.sentiment);
    JoinAvoids(r, ',', '\n');
  }

  /** The line after the header that belongs to the `i`-th record. */
  lemma CsvLineOf(header: seq<string>, items: seq<Feedback>, numberText: real -> string, isoDate: int -> string, i: int)
    requires 0 <= i < |items|
    ensures CsvLines(header, items, numberText, isoDate)[i + 1] == Row(items[i], numberText, isoDate)
  {
  }

  /** When neither a header nor any field holds a line break, no line
      does. */
  lemma CsvLinesSingle(header: seq<string>, items: seq<Feedback>, numberText: real -> string, isoDate: int -> string)
    requires forall i :: 0 <= i < |header| ==> '\n' !in header[i]
    requires forall i :: 0 <= i < |items| ==> SingleLine(items[i], numberText, isoDate)
    ensures forall i :: 0 <= i < |items| + 1 ==> '\n' !in CsvLines(header, items, numberText, isoDate)[i]
  {
    JoinAvoids(header, ',', '\n');
    forall i | 1 <= i < |items| + 1
      ensures '\n' !in CsvLines(header, items, numberText, isoDate)[i]
    {
      CsvLineOf(header, items, numberText, isoDate, i - 1);
      RowSingleLine(items[i - 1], numberText, isoDate);
    }
  }

  /** When no field holds a line break, the exported document has exactly
      `|items| + 1` lines: the header line first, then the `i`-th record's
      row on line `i + 1`, in store order. */
  lemma ExportLines(items: seq<Feedback>, numberText: real -> string, isoDate: int -> string)
    requires forall i :: 0 <= i < |items| ==> SingleLine(items[i], numberText, isoDate)
    ensures |Split(ExportCsv(items, numberText, isoDate), '\n')| == |items| + 1
    ensures Split(ExportCsv(items, numberText, isoDate), '\n')[0] == HeaderLine()
    ensures forall i :: 0 <= i < |items| ==>
              Split(ExportCsv(items, numberText, isoDate), '\n')[i + 1] == Row(items[i], numberText, isoDate)
  {
    var lines := Split(ExportCsv(items, numberText, isoDate), '\n');
    assert lines == CsvLines(Headers, items, numberText, isoDate);
    forall i | 0 <= i < |items|
      ensures lines[i + 1] == Row(items[i], numberText, isoDate)
    {
      CsvLineOf(Headers, items, numberText, isoDate, i);
    }
  }

  // ---------------------------------------------------------------------
  // Reading the export back, as RFC 4180 describes CSV: fields are
  // separated by `,` and records by `\n`; a field that starts with `"` runs
  // to the next lone `"`, may hold `,` and `\n`, and reads each `""` as `"`.

  /** A quoted field after its opening quote: its text, and what follows
      the closing quote. */
  function ReadQuoted(s: string): (res: (string, string))
    ensures |res.1| <= |s|
  {
    if s == [] then ([], [])
    else if s[0] == '"' then
      if |s| >= 2 && s[1] == '"' then
        var (f, rest) := ReadQuoted(s[2..]);
        ("\"" + f, rest)
      else ([], s[1..])
    else
      var (f, rest) := ReadQuoted(s[1..]);
      ([s[0]] + f, rest)
  }

  /** An unquoted field: the text up to the next `,` or `\n`. */
  function ReadPlain(s: string): (res: (string, string))
    ensures res.0 + res.1 == s
  {
    if s == [] || s[0] == ',' || s[0] == '\n' then ([], s)
    else
      var (f, rest) := ReadPlain(s[1..]);
      ([s[0]] + f, rest)
  }

  function ReadField(s: string): (res: (string, string))
    ensures |res.1| <= |s|
  {
    if s != [] && s[0] == '"' then ReadQuoted(s[1..]) else ReadPlain(s)
  }

  /** One record's fields, what follows it, and whether a `\n` ended it. */
  function ReadRecord(s: string): (res: (seq<string>, string, bool))
    ensures |res.0| >= 1
    ensures res.2 ==> |res.1| < |s|
    decreases |s|
  {
    var (f, rest) := ReadField(s);
    if rest != [] && rest[0] == ',' then
      var (fs, after, more) := ReadRecord(rest[1..]);
      ([f] + fs, after, more)
    else if rest != [] && rest[0] == '\n' then ([f], rest[1..], true)
    else ([f], [], false)
  }

  /** The records of a CSV document. */
  function ReadRecords(s: string): (rs: seq<seq<string>>)
    ensures |rs| >= 1
    decreases |s|
  {
    var (r, rest, more) := ReadRecord(s);
    if more then [r] + ReadRecords(rest) else [r]
  }

  /** Text a reader takes as it stands: no separator, no leading quote. */
  predicate Plain(c: string) {
    ',' !in c && '\n' !in c && (c == [] || c[0] != '"')
  }

  /** `f` is a way of writing the cell `c`: as it stands, or quoted. */
  predicate Writes(f: string, c: string) {
    (f == c && Plain(c)) || f == QuoteField(c)
  }

  /** `fields` write the cells `cells`, one each. */
  predicate WritesRow(fields: seq<string>, cells: seq<string>) {
    |fields| == |cells| >= 1 && forall j :: 0 <= j < |fields| ==> Writes(fields[j], cells[j])
  }

  lemma {:induction false} ReadQuotedEscape(c: string, t: string)
    requires t == [] || t[0] != '"'
    ensures ReadQuoted(EscapeQuotes(c) + "\"" + t) == (c, t)
  {
    var s := EscapeQuotes(c) + "\"" + t;
    if c == [] {
      assert s == "\"" + t;
      assert s[1..] == t;
    } else if c[0] == '"' {
      assert s[2..] == EscapeQuotes(c[1..]) + "\"" + t;
      ReadQuotedEscape(c[1..], t);
      assert "\"" + c[1..] == c;
    } else {
      assert s[1..] == EscapeQuotes(c[1..]) + "\"" + t;
      ReadQuotedEscape(c[1..], t);
      assert [c[0]] + c[1..] == c;
    }
  }

  lemma {:induction false} ReadPlainOf(c: string, t: string)
    requires ',' !in c && '\n' !in c
    requires t == [] || t[0] == ',' || t[0] == '\n'
    ensures ReadPlain(c + t) == (c, t)
  {
    if c != [] {
      assert (c + t)[1..] == c[1..] + t;
      ReadPlainOf(c[1..], t);
      assert [c[0]] + c[1..] == c;
    } else {
      assert c + t == t;
    }
  }

  /** A field followed by a separator, or by nothing, reads as its cell. */
  lemma ReadFieldOf(f: string, c: string, t: string)
    requires Writes(f, c)
    requires t == [] || t[0] == ',' || t[0] == '\n'
    ensures ReadField(f + t) == (c, t)
  {
    if f == QuoteField(c) {
      assert (f + t)[1..] == EscapeQuotes(c) + "\"" + t;
      ReadQuotedEscape(c, t);
    } else {
      assert c == [] || (f + t)[0] == c[0];
      ReadPlainOf(c, t);
    }
  }

  /** A line of written cells, followed by a line break or by nothing,
      reads as those cells. */
  lemma {:induction false} ReadRecordOf(fields: seq<string>, cells: seq<string>, t: string)
    requires WritesRow(fields, cells)
    requires t == [] || t[0] == '\n'
    ensures ReadRecord(Join(fields, ',') + t) == (cells, if t == [] then [] else t[1..], t != [])
  {
    if |fields| == 1 {
      assert Join(fields, ',') + t == fields[0] + t;
      ReadFieldOf(fields[0], cells[0], t);
      assert cells == [cells[0]];
    } else {
      var tail := Join(fields[1..], ',') + t;
      assert Join(fields, ',') + t == fields[0] + ([','] + tail);
      ReadFieldOf(fields[0], cells[0], [','] + tail);
      assert ([','] + tail)[1..] == tail;
      assert WritesRow(fields[1..], cells[1..]) by {
        forall j | 0 <= j < |fields| - 1
          ensures Writes(fields[1..][j], cells[1..][j])
        {
          assert Writes(fields[j + 1], cells[j + 1]);
        }
      }
      ReadRecordOf(fields[1..], cells[1..], t);
      assert [cells[0]] + cells[1..] == cells;
    }
  }

  /** Lines that each write a record, joined by line breaks, read as
      those records. */
  lemma {:induction false} ReadRecordsOf(lines: seq<string>, rows: seq<seq<string>>, cells: seq<seq<string>>)
    requires |lines| == |rows| == |cells| >= 1
    requires forall i :: 0 <= i < |lines| ==> lines[i] == Join(rows[i], ',') && WritesRow(rows[i], cells[i])
    ensures ReadRecords(Join(lines, '\n')) == cells
  {
    if |lines| == 1 {
      assert Join(lines, '\n') == Join(rows[0], ',') + [];
      ReadRecordOf(rows[0], cells[0], []);
      assert cells == [cells[0]];
    } else {
      var tail := Join(lines[1..], '\n');
      assert Join(lines, '\n') == Join(rows[0], ',') + (['\n'] + tail);
      ReadRecordOf(rows[0], cells[0], ['\n'] + tail);
      assert (['\n'] + tail)[1..] == tail;
      ReadRecordsOf(lines[1..], rows[1..], cells[1..]);
      assert [cells[0]] + cells[1..] == cells;
    }
  }

  /** The cells a reader should find in a record's line: its fields, with
      Content as stored rather than quoted. */
  function Cells(item: Feedback, numberText: real -> string, isoDate: int -> string): (c: seq<string>)
    ensures |c| == |Headers| && c[3] == item.content
  {
    RowFields(item, numberText, isoDate)[3 := item.content]
  }

  /** The records a reader should find in the export. */
  function Table(items: seq<Feedback>, numberText: real -> string, isoDate: int -> string): (t: seq<seq<string>>)
    ensures |t| == |items| + 1 && t[0] == Headers
    ensures forall i :: 1 <= i <= |items| ==> t[i] == Cells(items[i - 1], numberText, isoDate)
  {
    [Headers] + seq(|items|, i requires 0 <= i < |items| => Cells(items[i], numberText, isoDate))
  }

  /** The fields the export writes unquoted hold no comma, no line break
      and no leading quote. */
  predicate PlainFields(item: Feedback, numberText: real -> string, isoDate: int -> string) {
    && Plain(item.customerName)
    && (item.customerEmail.Some? ==> Plain(item.customerEmail.value))
    && Plain(numberText(item.confidence))
    && Plain(item.source)
    && Plain(isoDate(item.createdAt))
  }

  lemma IntTextPlain(n: int)
    ensures Plain(IntText(n))
  {
    var s := IntText(n);
    forall i | 0 <= i < |s|
      ensures s[i] != ',' && s[i] != '\n'
    {
    }
  }

  lemma HeadersPlain()
    ensures WritesRow(Headers, Headers)
  {
    HeadersPlainText();
    forall j | 0 <= j < |Headers|
      ensures Writes(Headers[j], Headers[j])
    {
      assert Plain(Headers[j]);
    }
  }

  lemma HeadersPlainText()
    ensures forall j :: 0 <= j < |Headers| ==> Plain(Headers[j])
  {
  }

  lemma RowWrites(item: Feedback, numberText: real -> string, isoDate: int -> string)
    requires PlainFields(item, numberText, isoDate)
    ensures WritesRow(RowFields(item, numberText, isoDate), Cells(item, numberText, isoDate))
  {
    var f := RowFields(item, numberText, isoDate);
    var c := Cells(item, numberText, isoDate);
    IntTextPlain(item.id);
    if item.rating.Some? {
      IntTextPlain(item.rating.value);
    }
    assert Plain(Name(item.sentiment));
    forall j | 0 <= j < |f|
      ensures Writes(f[j], c[j])
    {
      if j != 3 {
        assert c[j] == f[j];
      }
    }
  }

  lemma ReadRow(item: Feedback, numberText: real -> string, isoDate: int -> string)
    requires PlainFields(item, numberText, isoDate)
    ensures ReadRecords(Join(RowFields(item, numberText, isoDate), ',')) == [Cells(item, numberText, isoDate)]
  {
    var fields := RowFields(item, numberText, isoDate);
    RowWrites(item, numberText, isoDate);
    ReadRecordOf(fields, Cells(item, numberText, isoDate), []);
    assert Join(fields, ',') + [] == Join(fields, ',');
  }

  lemma ReadExport(items: seq<Feedback>, numberText: real -> string, isoDate: int -> string)
    requires forall i :: 0 <= i < |items| ==> PlainFields(items[i], numberText, isoDate)
    ensures ReadRecords(Join(CsvLines(Headers, items, numberText, isoDate), '\n')) == Table(items, numberText, isoDate)
  {
    HeadersPlain();
    ReadLines(Headers, items, numberText, isoDate);
  }

  /** The read-back of the export, for any header row a reader takes as
      it stands. */
  lemma ReadLines(header: seq<string>, items: seq<Feedback>, numberText: real -> string, isoDate: int -> string)
    requires WritesRow(header, header)
    requires forall i :: 0 <= i < |items| ==> PlainFields(items[i], numberText, isoDate)
    ensures ReadRecords(Join(CsvLines(header, items, numberText, isoDate), '\n'))
            == [header] + seq(|items|, i requires 0 <= i < |items| => Cells(items[i], numberText, isoDate))
  {
    var lines := CsvLines(header, items, numberText, isoDate);
    var rows := [header] + seq(|items|, i requires 0 <= i < |items| => RowFields(items[i], numberText, isoDate));
    var cells := [header] + seq(|items|, i requires 0 <= i < |items| => Cells(items[i], numberText, isoDate));
    forall i | 0 <= i < |lines|
      ensures lines[i] == Join(rows[i], ',') && WritesRow(rows[i], cells[i])
    {
      if i > 0 {
        LineWrites(header, items, numberText, isoDate, i - 1);
      }
    }
    ReadRecordsOf(lines, rows, cells);
  }

  lemma LineWrites(header: seq<string>, items: seq<Feedback>, numberText: real -> string, isoDate: int -> string, i: int)
    requires 0 <= i < |items| && PlainFields(items[i], numberText, isoDate)
    ensures CsvLines(header, items, numberText, isoDate)[i + 1] == Join(RowFields(items[i], numberText, isoDate), ',')
    ensures WritesRow(RowFields(items[i], numberText, isoDate), Cells(items[i], numberText, isoDate))
  {
    CsvLineOf(header, items, numberText, isoDate, i);
    RowWrites(items[i], numberText, isoDate);
  }

  // ---------------------------------------------------------------------
  // The `days` parameter of the trends route

  /** `parseInt(req.query.days as string) || 30`; a missing parameter is
      `undefined`, whose text does not parse. */
  function TrendDays(query: Option<string>): (days: int)
    ensures days != 0
    ensures ParseInt(query.GetOr("undefined")).Some? && ParseInt(query.GetOr("undefined")).value != 0
            ==> days == ParseInt(query.GetOr("undefined")).value
    ensures ParseInt(query.GetOr("undefined")) in {None, Some(0)} ==> days == 30
  {
    var n := ParseInt(query.GetOr("undefined"));
    if n.None? || n.value == 0 then 30 else n.value
  }

  /** A nonzero integer written in decimal is taken as is. */
  lemma TrendDaysOf(n: int)
    requires n != 0
    ensures TrendDays(Some(IntText(n))) == n
  {
    ParseIntText(n, "");
    assert IntText(n) + "" == IntText(n);
  }

  /** A missing parameter means 30 days: `parseInt(undefined)` is NaN. */
  lemma TrendDaysMissing()
    ensures TrendDays(None) == 30
  {
    ParseIntNoDigit("undefined");
  }

  /** A zero parameter means 30 days. */
  lemma TrendDaysZero()
    ensures TrendDays(Some("0")) == 30
  {
    ParseIntText(0, "");
    assert IntText(0) + "" == "0";
  }

  // ---------------------------------------------------------------------
  // Handlers

  datatype Response<T> = Ok(body: T) | Failure(status: int, message: string)

  const InvalidFeedback: Response<Feedback> := Failure(400, "Invalid feedback data")
  const FeedbackNotFound: Response<Feedback> := Failure(404, "Feedback not found")
  const UpdateFailed: Response<Feedback> := Failure(500, "Failed to update feedback response")

  /** The validated request body. A client may send its own sentiment,
      confidence and rating; they survive validation but not the merge. */
  datatype FeedbackInput = FeedbackInput(
    customerName: string, customerEmail: Option<string>, content: string, source: string,
    sentiment: Option<JsValue>, confidence: Option<JsValue>, rating: Option<JsValue>)

  /** What `createFeedback` receives. */
  datatype NewFeedback = NewFeedback(
    customerName: string, customerEmail: Option<string>, content: string, source: string,
    sentiment: Sentiment, confidence: real, rating: Option<int>)

  /** `{...validatedData, sentiment, confidence, rating}`: the classifier's
      three fields override whatever the body carried, including an absent
      rating overriding a sent one. */
  function WithClassification(input: FeedbackInput, a: Analysis): (r: NewFeedback)
    ensures r.sentiment == a.sentiment && r.confidence == a.confidence && r.rating == a.rating
    ensures (r.customerName, r.customerEmail, r.content, r.source)
         == (input.customerName, input.customerEmail, input.content, input.source)
  {
    NewFeedback(input.customerName, input.customerEmail, input.content, input.source,
                a.sentiment, a.confidence, a.rating)
  }

  /** The calls the POST handler makes on the store. */
  datatype StoreCall =
    | GetCustomerByEmail(email: string)
    | CreateCustomer(name: string, email: string)
    | UpdateCustomerStats(email: string)
    | CreateFeedback(record: NewFeedback)

  /** `if (validatedData.customerEmail)` */
  predicate HasEmail(input: FeedbackInput) {
    input.customerEmail.Some? && input.customerEmail.value != ""
  }

  /** The calls a POST makes when none of them throws. */
  function PostPlan(input: FeedbackInput, a: Analysis, customerExists: string -> bool): (plan: seq<StoreCall>)
    ensures |plan| >= 1 && plan[|plan| - 1] == CreateFeedback(WithClassification(input, a))
    ensures forall i :: 0 <= i < |plan| - 1 ==> !plan[i].CreateFeedback?
    ensures |plan| > 1 <==> HasEmail(input)
    ensures HasEmail(input) ==> |plan| == if customerExists(input.customerEmail.value) then 3 else 4
    ensures HasEmail(input) && !customerExists(input.customerEmail.value)
            ==> plan[1] == CreateCustomer(input.customerName, input.customerEmail.value)
    ensures HasEmail(input) ==>
      && plan[0] == GetCustomerByEmail(input.customerEmail.value)
      && plan[|plan| - 2] == UpdateCustomerStats(input.customerEmail.value)
      && (CreateCustomer(input.customerName, input.customerEmail.value) in plan
          <==> !customerExists(input.customerEmail.value))
  {
    var create := [CreateFeedback(WithClassification(input, a))];
    if !HasEmail(input) then create
    else
      var email := input.customerEmail.value;
      var lookup := [GetCustomerByEmail(email)];
      var insert := if customerExists(email) then [] else [CreateCustomer(input.customerName, email)];
      lookup + insert + [UpdateCustomerStats(email)] + create
  }

  /** The index of the first call that throws, or `|calls|` when none does. */
  function FirstFailure(calls: seq<StoreCall>, throws: StoreCall -> bool): (k: nat)
    ensures k <= |calls|
    ensures k < |calls| ==> throws(calls[k])
    ensures forall i :: 0 <= i < k ==> !throws(calls[i])
  {
    if calls == [] then 0
    else if throws(calls[0]) then 0
    else 1 + FirstFailure(calls[1..], throws)
  }

  /** The first throwing call is the one before which nothing throws. */
  lemma {:induction false} FirstFailureAt(calls: seq<StoreCall>, throws: StoreCall -> bool, j: nat)
    requires j <= |calls|
    requires forall i :: 0 <= i < j ==> !throws(calls[i])
    requires j < |calls| ==> throws(calls[j])
    ensures FirstFailure(calls, throws) == j
  {
    if calls != [] && !throws(calls[0]) {
      FirstFailureAt(calls[1..], throws, j - 1);
    }
  }

  /** The store as the POST handler sees it: whether a customer exists for
      an email, which calls throw, and the record `createFeedback` returns. */
  datatype PostStore = PostStore(
    customerExists: string -> bool, throws: StoreCall -> bool, created: Feedback)

  /** The store calls of `POST /api/feedback` once the record is
      classified: look the customer up, create them if missing, bump their
      statistics, then create the feedback record; the first call that
      throws ends the request with a 400. */
  method RecordFeedback(input: FeedbackInput, analysis: Analysis, store: PostStore)
    returns (response: Response<Feedback>, calls: seq<StoreCall>)
    ensures var plan := PostPlan(input, analysis, store.customerExists);
      var k := FirstFailure(plan, store.throws);
      && calls == plan[..if k < |plan| then k + 1 else |plan|]
      && response == (if k < |plan| then InvalidFeedback else Ok(store.created))
  {
    ghost var plan := PostPlan(input, analysis, store.customerExists);
    calls := [];
    if HasEmail(input) {
      var email := input.customerEmail.value;
      ghost var insert := if store.customerExists(email) then [] else [CreateCustomer(input.customerName, email)];
      assert plan == [GetCustomerByEmail(email)] + insert + [UpdateCustomerStats(email)]
                     + [CreateFeedback(WithClassification(input, analysis))];
      calls := calls + [GetCustomerByEmail(email)];
      if store.throws(GetCustomerByEmail(email)) {
        return InvalidFeedback, calls;
      }
      if !store.customerExists(email) {
        calls := calls + [CreateCustomer(input.customerName, email)];
        if store.throws(CreateCustomer(input.customerName, email)) {
          return InvalidFeedback, calls;
        }
      }
      calls := calls + [UpdateCustomerStats(email)];
      if store.throws(UpdateCustomerStats(email)) {
        return InvalidFeedback, calls;
      }
    }
    var record := WithClassification(input, analysis);
    calls := calls + [CreateFeedback(record)];
    if store.throws(CreateFeedback(record)) {
      return InvalidFeedback, calls;
    }
    response := Ok(store.created);
  }

  /** `POST /api/feedback`. `body` is `None` when validation throws; the
      classifier's outcome is `completion` and `jsonParse`. Returns the
      response and the store calls made, in order. */
  method SubmitFeedback(body: Option<FeedbackInput>, completion: Completion,
                        jsonParse: string -> Option<JsValue>, store: PostStore)
    returns (response: Response<Feedback>, calls: seq<StoreCall>)
    ensures body.None? ==> response == InvalidFeedback && calls == []
    ensures body.Some? ==>
      var plan := PostPlan(body.value, AnalyzeSentiment(completion, jsonParse), store.customerExists);
      var k := FirstFailure(plan, store.throws);
      && calls == plan[..if k < |plan| then k + 1 else |plan|]
      && response == (if k < |plan| then InvalidFeedback else Ok(store.created))
  {
    if body.None? {
      return InvalidFeedback, [];
    }
    var analysis := AnalyzeSentiment(completion, jsonParse);
    response, calls := RecordFeedback(body.value, analysis, store);
  }

  /** What `updateFeedbackResponse` does: throws, or answers with the
      updated record or nothing. */
  datatype StoreReply = Threw | Answered(record: Option<Feedback>)

  /** `PATCH /api/feedback/:id/respond`. The store is given the `parseInt`
      of the path parameter (`None` is NaN) and the body's `isResponded`. */
  method RespondToFeedback(idParam: string, body: JsValue,
                           store: (Option<int>, JsValue) -> StoreReply)
    returns (response: Response<Feedback>, id: Option<int>)
    ensures id == ParseInt(idParam)
    ensures Get(body, "isResponded").None? ==> response == UpdateFailed
    ensures Get(body, "isResponded").Some? ==>
      match store(id, Get(body, "isResponded").value)
      case Threw => response == UpdateFailed
      case Answered(None) => response == FeedbackNotFound
      case Answered(Some(f)) => response == Ok(f)
  {
    id := ParseInt(idParam);
    var isResponded := Get(body, "isResponded");
    if isResponded.None? {
      return UpdateFailed, id;
    }
    var reply := store(id, isResponded.value);
    if reply.Threw? {
      response := UpdateFailed;
    } else if reply.record.None? {
      response := FeedbackNotFound;
    } else {
      response := Ok(reply.record.value);
    }
  }

  /** A failed classification never fails the submission: when the store
      does not throw, the record is created with the fallback result. */
  lemma ClassifierFailureTolerated(input: FeedbackInput, jsonParse: string -> Option<JsValue>, store: PostStore)
    requires forall c :: !store.throws(c)
    ensures FirstFailure(PostPlan(input, AnalyzeSentiment(CallFailed, jsonParse), store.customerExists), store.throws)
         == |PostPlan(input, AnalyzeSentiment(CallFailed, jsonParse), store.customerExists)|
    ensures var plan := PostPlan(input, AnalyzeSentiment(CallFailed, jsonParse), store.customerExists);
            plan[|plan| - 1].record.sentiment == Neutral && plan[|plan| - 1].record.confidence == 0.1
            && plan[|plan| - 1].record.rating.None?
  {
  }
}

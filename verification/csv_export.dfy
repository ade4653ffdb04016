/**
 * The text `exportToCSV` in app.js builds from the list of scanned codes:
 * a header line, then one line per entry with the value and the timestamp
 * each in double quotes. The export puts the fields between quotes but does
 * not escape a quote inside a field; `ExportCsv` is that text as written,
 * `ExportCsvEscaped` the same text with quotes doubled as section 2 of
 * RFC 4180 requires. Both are read back with one RFC 4180 reader,
 * `ParseCsv`.
 */
module CsvExport {
  import opened Text
  import opened Options
  import opened ScanSession

  /** The header line of the export. */
  const CsvHeader: string := "Código,Data/Hora\n"

  /** One line of the export as written: each field between quotes, unescaped. */
  function CsvRow(entry: Entry): string {
    "\"" + entry.value + "\",\"" + entry.timestamp + "\"\n"
  }

  function CsvRows(list: seq<Entry>): string
    decreases |list|
  {
    if |list| == 0 then "" else CsvRow(list[0]) + CsvRows(list[1..])
  }

  /**
   * The export as written: no export for an empty list (the source alerts
   * instead), otherwise the header followed by one line per entry in list
   * order.
   */
  function ExportCsv(list: seq<Entry>): Option<string> {
    if |list| == 0 then None else Some(CsvHeader + CsvRows(list))
  }

  /** The rows of a concatenation are the rows of each part, one line per entry in order. */
  lemma {:induction false} CsvRowsConcat(a: seq<Entry>, b: seq<Entry>)
    ensures CsvRows(a + b) == CsvRows(a) + CsvRows(b)
    decreases |a|
  {
    if |a| == 0 {
      assert a + b == b;
    } else {
      assert (a + b)[1..] == a[1..] + b;
      CsvRowsConcat(a[1..], b);
    }
  }

  /**
   * The export of a list extended by one entry is the export of the list
   * followed by exactly that entry's line.
   */
  lemma ExportAppendsOneLine(list: seq<Entry>, e: Entry)
    ensures ExportCsv([e]) == Some(CsvHeader + CsvRow(e))
    ensures |list| > 0 ==> ExportCsv(list + [e]) == Some(ExportCsv(list).value + CsvRow(e))
  {
    assert [e][1..] == [];
    assert CsvRows([e]) == CsvRow(e) + CsvRows([]) == CsvRow(e);
    CsvRowsConcat(list, [e]);
    assert CsvHeader + CsvRows(list + [e]) == CsvHeader + CsvRows(list) + CsvRow(e);
  }

  /** A field's text with every double quote doubled (RFC 4180, section 2, rule 7). */
  function Escape(s: string): string
    decreases |s|
  {
    if |s| == 0 then ""
    else (if s[0] == '"' then "\"\"" else [s[0]]) + Escape(s[1..])
  }

  /** One line of the corrected export: each field between quotes, quotes doubled. */
  function EscapedRow(entry: Entry): string {
    "\"" + Escape(entry.value) + "\",\"" + Escape(entry.timestamp) + "\"\n"
  }

  function EscapedRows(list: seq<Entry>): string
    decreases |list|
  {
    if |list| == 0 then "" else EscapedRow(list[0]) + EscapedRows(list[1..])
  }

  /** The export with the fields escaped; otherwise the same as `ExportCsv`. */
  function ExportCsvEscaped(list: seq<Entry>): Option<string> {
    if |list| == 0 then None else Some(CsvHeader + EscapedRows(list))
  }

  /**
   * Reads the rest of a quoted field, its opening quote already consumed:
   * `""` stands for one quote and a lone `"` closes the field. Returns the
   * field and the text after the closing quote.
   */
  function ReadQuoted(s: string): (r: Option<(string, string)>)
    ensures r.Some? ==> |r.value.1| < |s|
    decreases |s|
  {
    if |s| == 0 then None
    else if s[0] == '"' then
      if |s| >= 2 && s[1] == '"' then
        match ReadQuoted(s[2..])
        case None => None
        case Some((field, rest)) => Some(("\"" + field, rest))
      else Some(("", s[1..]))
    else
      match ReadQuoted(s[1..])
      case None => None
      case Some((field, rest)) => Some(([s[0]] + field, rest))
  }

  /** A quoted field at the front of `s`, and the text after it. */
  function QuotedField(s: string): (r: Option<(string, string)>)
    ensures r.Some? ==> |r.value.1| < |s|
  {
    if |s| == 0 || s[0] != '"' then None else ReadQuoted(s[1..])
  }

  /** Reads one line `"value","timestamp"` and returns the text after it. */
  function ParseRow(s: string): (r: Option<(Entry, string)>)
    ensures r.Some? ==> |r.value.1| < |s|
  {
    match QuotedField(s)
    case None => None
    case Some((value, afterValue)) =>
      if |afterValue| == 0 || afterValue[0] != ',' then None
      else
        match QuotedField(afterValue[1..])
        case None => None
        case Some((timestamp, afterTimestamp)) =>
          if |afterTimestamp| == 0 || afterTimestamp[0] != '\n' then None
          else Some((Entry(value, timestamp), afterTimestamp[1..]))
  }

  /** Reads lines back into entries, up to the end of the text. */
  function ParseRows(s: string): Option<seq<Entry>>
    decreases |s|
  {
    if |s| == 0 then Some([])
    else
      match ParseRow(s)
      case None => None
      case Some((entry, rest)) =>
        match ParseRows(rest)
        case None => None
        case Some(entries) => Some([entry] + entries)
  }

  /** Reads an export back: the header, then its lines. */
  function ParseCsv(text: string): Option<seq<Entry>> {
    if StartsWith(text, CsvHeader) then ParseRows(text[|CsvHeader|..]) else None
  }

  /**
   * An escaped field followed by its closing quote is read back as the
   * field, provided the text after the quote does not start with another
   * quote (in an export it starts with `,` or a line break).
   */
  lemma {:induction false} ReadQuotedOfEscaped(v: string, rest: string)
    requires |rest| == 0 || rest[0] != '"'
    ensures ReadQuoted(Escape(v) + "\"" + rest) == Some((v, rest))
    decreases |v|
  {
    var s := Escape(v) + "\"" + rest;
    if |v| == 0 {
      assert s == "\"" + rest;
      assert s[1..] == rest;
    } else {
      ReadQuotedOfEscaped(v[1..], rest);
      var tail := Escape(v[1..]) + "\"" + rest;
      if v[0] == '"' {
        assert s == "\"\"" + tail;
        assert s[2..] == tail;
      } else {
        assert s == [v[0]] + tail;
        assert s[1..] == tail;
      }
      assert v == [v[0]] + v[1..];
    }
  }

  /** A quoted, escaped field at the front of a text is read back as the field. */
  lemma QuotedFieldOfEscaped(v: string, rest: string)
    requires |rest| == 0 || rest[0] != '"'
    ensures QuotedField("\"" + Escape(v) + "\"" + rest) == Some((v, rest))
  {
    var t := Escape(v) + "\"" + rest;
    assert "\"" + Escape(v) + "\"" + rest == "\"" + t;
    assert ("\"" + t)[0] == '"';
    assert ("\"" + t)[1..] == t;
    ReadQuotedOfEscaped(v, rest);
  }

  /** One escaped line is read back as its entry, and reading continues after it. */
  lemma ParseRowOfEscaped(e: Entry, tail: string)
    ensures ParseRow(EscapedRow(e) + tail) == Some((e, tail))
  {
    var afterTimestamp := "\n" + tail;
    var timestampField := "\"" + Escape(e.timestamp) + "\"" + afterTimestamp;
    var afterValue := "," + timestampField;
    assert EscapedRow(e) + tail == "\"" + Escape(e.value) + "\"" + afterValue;
    QuotedFieldOfEscaped(e.value, afterValue);
    assert afterValue[1..] == timestampField;
    QuotedFieldOfEscaped(e.timestamp, afterTimestamp);
    assert afterTimestamp[1..] == tail;
  }

  lemma {:induction false} ParseRowsOfEscapedRows(list: seq<Entry>)
    ensures ParseRows(EscapedRows(list)) == Some(list)
    decreases |list|
  {
    if |list| > 0 {
      ParseRowOfEscaped(list[0], EscapedRows(list[1..]));
      ParseRowsOfEscapedRows(list[1..]);
      assert list == [list[0]] + list[1..];
    }
  }

  /** Reading the header back hands the rows to the line reader. */
  lemma ParseCsvOfHeader(rows: string)
    ensures ParseCsv(CsvHeader + rows) == ParseRows(rows)
  {
    var text := CsvHeader + rows;
    assert text[..|CsvHeader|] == CsvHeader;
    assert text[|CsvHeader|..] == rows;
  }

  /**
   * The escaped export reads back as exactly the list, entry for entry and
   * in order, whatever the values and timestamps hold; an empty list gives
   * no export.
   */
  lemma EscapedExportRoundTrip(list: seq<Entry>)
    ensures ExportCsvEscaped(list).None? <==> |list| == 0
    ensures |list| > 0 ==> ParseCsv(ExportCsvEscaped(list).value) == Some(list)
  {
    if |list| > 0 {
      ParseCsvOfHeader(EscapedRows(list));
      ParseRowsOfEscapedRows(list);
    }
  }

  /** No value and no timestamp contains a double quote. */
  predicate QuoteFree(list: seq<Entry>) {
    forall i | 0 <= i < |list| :: '"' !in list[i].value && '"' !in list[i].timestamp
  }

  /** Escaping changes nothing in a text without quotes. */
  lemma {:induction false} EscapeQuoteFree(s: string)
    requires '"' !in s
    ensures Escape(s) == s
    decreases |s|
  {
    if |s| > 0 {
      assert s == [s[0]] + s[1..];
      EscapeQuoteFree(s[1..]);
    }
  }

  /** Without quotes in the data, the export as written is the escaped export. */
  lemma {:induction false} ExportAgreesWhenQuoteFree(list: seq<Entry>)
    requires QuoteFree(list)
    ensures ExportCsv(list) == ExportCsvEscaped(list)
  {
    assert CsvRows(list) == EscapedRows(list) by {
      RowsAgreeWhenQuoteFree(list);
    }
  }

  lemma {:induction false} RowsAgreeWhenQuoteFree(list: seq<Entry>)
    requires QuoteFree(list)
    ensures CsvRows(list) == EscapedRows(list)
    decreases |list|
  {
    if |list| > 0 {
      EscapeQuoteFree(list[0].value);
      EscapeQuoteFree(list[0].timestamp);
      assert QuoteFree(list[1..]) by {
        forall i | 0 <= i < |list| - 1
          ensures '"' !in list[1..][i].value && '"' !in list[1..][i].timestamp
        {
          assert list[1..][i] == list[i + 1];
        }
      }
      RowsAgreeWhenQuoteFree(list[1..]);
    }
  }

  /**
   * The export as written reads back as exactly the list when no value or
   * timestamp holds a double quote; an empty list gives no export.
   */
  lemma ExportRoundTrip(list: seq<Entry>)
    requires QuoteFree(list)
    ensures ExportCsv(list).None? <==> |list| == 0
    ensures |list| > 0 ==> ParseCsv(ExportCsv(list).value) == Some(list)
  {
    ExportAgreesWhenQuoteFree(list);
    EscapedExportRoundTrip(list);
  }

  /**
   * The export as written loses information once a field holds a quote:
   * the value `A","B` with timestamp `C` and the value `A` with timestamp
   * `B","C` give the same line, so no reader can tell the two lists apart.
   */
  lemma ExportConflatesQuotedFields()
    ensures var first := [Entry("A\",\"B", "C")];
            var second := [Entry("A", "B\",\"C")];
            first != second && ExportCsv(first) == ExportCsv(second)
  {
    assert Entry("A\",\"B", "C").value != Entry("A", "B\",\"C").value by {
      assert |"A\",\"B"| != |"A"|;
    }
    assert CsvRows([Entry("A\",\"B", "C")]) == CsvRow(Entry("A\",\"B", "C"));
    assert CsvRows([Entry("A", "B\",\"C")]) == CsvRow(Entry("A", "B\",\"C"));
    assert CsvRow(Entry("A\",\"B", "C")) == CsvRow(Entry("A", "B\",\"C"));
  }
}

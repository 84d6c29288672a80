/** The table's export button: a twelve-column CSV file without a
    byte-order mark, with `%` after CTR and ROI and `$` before the cost, an
    HTML report with upper-cased labels, and the same refusal of a second
    export while one runs. The source writes the campaign name between
    double quotes without doubling the quotes inside it; `RowLineAsWritten`
    keeps that text and `RowLine` the escaped one the rest of the model uses. */
module SimpleExport {
  import opened Common
  import opened CampaignData
  import opened Csv
  import opened Report

  /** The twelve column names, from the campaign name to the ROI. */
  function Headers(): (names: seq<string>)
    ensures |names| == 12 && names[0] == "Campaign" && names[11] == "ROI"
  {
    [ "Campaign", "Status", "Category", "Platform", "Start Date", "End Date",
      "Impressions", "Clicks", "CTR", "Cost", "Conversions", "ROI" ]
  }

  /** The eleven fields after the campaign name, each with its decoration. */
  function PlainTexts(r: TableRow, show: real -> string): (texts: seq<string>)
    ensures |texts| == 11
  {
    [ StatusText(r.status), CategoryText(r.category), PlatformText(r.platform),
      IsoText(r.startDate), IsoText(r.endDate),
      show(r.impressions as real), show(r.clicks as real), show(r.ctr) + "%",
      "$" + show(r.cost), show(r.conversions as real), show(r.roi) + "%" ]
  }

  /** A data line as the source writes it: the name between quotes as is. */
  function RowLineAsWritten(r: TableRow, show: real -> string): (line: string)
    ensures StartsWith(line, "\"" + r.campaign + "\"")
  {
    JoinStartsWithFirst(["\"" + r.campaign + "\""] + PlainTexts(r, show), ",");
    Join(["\"" + r.campaign + "\""] + PlainTexts(r, show), ",")
  }

  /** The twelve fields with the name quoted as RFC 4180 asks. */
  function RowCells(r: TableRow, show: real -> string): (cells: seq<Cell>)
    ensures |cells| == 12
  {
    var texts := PlainTexts(r, show);
    [Quoted(r.campaign)] + seq(11, i requires 0 <= i < 11 => Plain(texts[i]))
  }

  /** The escaped line: it opens with the name quoted, inner quotes doubled. */
  function RowLine(r: TableRow, show: real -> string): (line: string)
    ensures StartsWith(line, Quote(r.campaign))
  {
    JoinStartsWithFirst(Renders(RowCells(r, show)), ",");
    RenderRecord(RowCells(r, show))
  }

  lemma EnumTextsPlain(r: TableRow)
    ensures PlainSafe(StatusText(r.status)) && '\n' !in StatusText(r.status)
    ensures PlainSafe(CategoryText(r.category)) && '\n' !in CategoryText(r.category)
    ensures PlainSafe(PlatformText(r.platform)) && '\n' !in PlatformText(r.platform)
  {
    StatusWord(r.status);
    CategoryWord(r.category);
    PlatformWord(r.platform);
    WordPlain(StatusText(r.status));
    WordPlain(CategoryText(r.category));
    WordPlain(PlatformText(r.platform));
  }

  lemma PlainTextsSafe(r: TableRow, show: real -> string)
    requires SafeNumbers(show)
    ensures forall i :: 0 <= i < 11 ==> PlainSafe(PlainTexts(r, show)[i]) && '\n' !in PlainTexts(r, show)[i]
  {
    EnumTextsPlain(r);
  }

  /** The escaped line reads back as the row's twelve values in column order,
      decorations included, and the name exactly as it was. */
  lemma RowReadsBack(r: TableRow, show: real -> string)
    requires SafeNumbers(show)
    ensures ParseRecord(RowLine(r, show)) == Some([r.campaign] + PlainTexts(r, show))
  {
    var cells := RowCells(r, show);
    PlainTextsSafe(r, show);
    ParseRecordRender(cells);
    assert Values(cells) == [r.campaign] + PlainTexts(r, show);
  }

  /** Without a double quote in the name the source's line is the escaped one. */
  lemma AsWrittenAgreesWithoutQuotes(r: TableRow, show: real -> string)
    requires '"' !in r.campaign
    ensures RowLineAsWritten(r, show) == RowLine(r, show)
  {
    var cells := RowCells(r, show);
    QuoteWithoutQuotes(r.campaign);
    assert Renders(cells) == ["\"" + r.campaign + "\""] + PlainTexts(r, show);
  }

  /** A name with a double quote inside, `a"b`, makes the source's line
      unreadable as a record: the quote closes the field early and a `b`
      follows where a comma should. */
  lemma AsWrittenLosesQuotedName(r: TableRow, show: real -> string)
    requires r.campaign == "a\"b"
    ensures ParseRecord(RowLineAsWritten(r, show)) == None
    ensures SafeNumbers(show) ==> ParseRecord(RowLine(r, show)) == Some([r.campaign] + PlainTexts(r, show))
  {
    var parts := ["\"" + r.campaign + "\""] + PlainTexts(r, show);
    var tail := "," + Join(parts[1..], ",");
    assert RowLineAsWritten(r, show) == "\"a\"b\"" + tail;
    ClosesEarly(tail);
    if SafeNumbers(show) { RowReadsBack(r, show); }
  }

  /** The field `"a"` ends at the second quote and leaves `b"` behind. */
  lemma ClosesEarly(tail: string)
    ensures ParseRecord("\"a\"b\"" + tail) == None
  {
    var s := "\"a\"b\"" + tail;
    var u := "\"b\"" + tail;
    assert u[0] == '"' && u[1] == 'b' && u[1..] == "b\"" + tail;
    assert ScanQuoted(u) == Some(([], "b\"" + tail));
    var v := s[1..];
    assert v[0] == 'a' && v[1..] == u;
    assert ScanQuoted(v[1..]) == Some(([], "b\"" + tail));
    assert ScanQuoted(v) == Some(([v[0]] + [], "b\"" + tail));
    assert [v[0]] + [] == "a";
    assert ParseField(s) == Some(("a", "b\"" + tail));
  }

  function HeaderLine(): string
  {
    Join(Headers(), ",")
  }

  /** One line per row, in the order given. */
  function RowLines(data: seq<TableRow>, show: real -> string): (lines: seq<string>)
    ensures |lines| == |data|
    ensures forall i :: 0 <= i < |data| ==> lines[i] == RowLine(data[i], show)
  {
    seq(|data|, i requires 0 <= i < |data| => RowLine(data[i], show))
  }

  function CsvLines(data: seq<TableRow>, show: real -> string): (lines: seq<string>)
    ensures |lines| == |data| + 1
    ensures lines[0] == HeaderLine()
    ensures forall i :: 0 <= i < |data| ==> lines[i + 1] == RowLine(data[i], show)
  {
    var header, rows := HeaderLine(), RowLines(data, show);
    ConsIndex(header, rows);
    [header] + rows
  }

  /** The lines joined by line breaks: the header comes first, and an
      empty table gives the header alone. */
  function CsvContent(data: seq<TableRow>, show: real -> string): (text: string)
    ensures StartsWith(text, HeaderLine())
    ensures data == [] ==> text == HeaderLine()
  {
    JoinStartsWithFirst(CsvLines(data, show), "\n");
    Join(CsvLines(data, show), "\n")
  }

  lemma HeadersPlain()
    ensures forall i :: 0 <= i < |Headers()| ==> PlainSafe(Headers()[i]) && '\n' !in Headers()[i]
  {
  }

  /** The header line reads back as exactly the twelve column names. */
  lemma HeaderReadsBack()
    ensures ParseRecord(HeaderLine()) == Some(Headers())
  {
    HeadersPlain();
    PlainRecordReadsBack(Headers());
  }

  /** The file starts with the header: there is no byte-order mark. */
  lemma NoByteOrderMark(data: seq<TableRow>, show: real -> string)
    ensures CsvContent(data, show)[0] == 'C'
  {
    JoinStartsWithFirst(Headers(), ",");
    JoinStartsWithFirst(CsvLines(data, show), "\n");
  }

  lemma RowHasNoNewline(r: TableRow, show: real -> string)
    requires SafeNumbers(show) && '\n' !in r.campaign
    ensures '\n' !in RowLine(r, show)
  {
    var cells := RowCells(r, show);
    PlainTextsSafe(r, show);
    QuoteKeepsOut(r.campaign, '\n');
    forall i | 0 <= i < |cells| ensures '\n' !in Renders(cells)[i] {
    }
    JoinKeepsOut(Renders(cells), ",", '\n');
  }

  lemma LinesHaveNoNewline(data: seq<TableRow>, show: real -> string)
    requires SafeNumbers(show)
    requires forall i :: 0 <= i < |data| ==> '\n' !in data[i].campaign
    ensures forall k :: 0 <= k < |data| + 1 ==> '\n' !in CsvLines(data, show)[k]
  {
    var lines := CsvLines(data, show);
    forall k | 0 <= k < |lines| ensures '\n' !in lines[k] {
      if k > 0 {
        var i := k - 1;
        assert lines[i + 1] == RowLine(data[i], show);
        RowHasNoNewline(data[i], show);
      } else {
        HeadersPlain();
        JoinKeepsOut(Headers(), ",", '\n');
      }
    }
  }

  /** When no name holds a line break the file is exactly the header and one
      line per row; an empty table gives the header alone. */
  lemma LinesSplitBack(data: seq<TableRow>, show: real -> string)
    requires SafeNumbers(show)
    requires forall i :: 0 <= i < |data| ==> '\n' !in data[i].campaign
    ensures Split(CsvContent(data, show), '\n') == CsvLines(data, show)
    ensures data == [] ==> CsvContent(data, show) == HeaderLine()
  {
    LinesHaveNoNewline(data, show);
    SplitJoin(CsvLines(data, show), '\n');
  }

  // --------------------------------------------------------------------- HTML

  /** `category.replace('-', ' ').toUpperCase()`: as long as the category's
      text, with no lower-case letter left. */
  function CategoryLabel(c: Category): (caption: string)
    ensures |caption| == |CategoryText(c)|
    ensures forall i :: 0 <= i < |caption| ==> !('a' <= caption[i] <= 'z')
  {
    Upper(ReplaceFirst(CategoryText(c), "-", " "))
  }

  lemma {:induction false} AbsentNotContained(s: string, c: char)
    requires c !in s
    ensures !Contains(s, [c])
  {
    if s != [] {
      assert s[..1] == [s[0]];
      AbsentNotContained(s[1..], c);
    }
  }

  lemma ReplaceAbsent(s: string, c: char, rep: string)
    requires c !in s
    ensures ReplaceFirst(s, [c], rep) == s
  {
    AbsentNotContained(s, c);
  }

  lemma LeadGenLabel()
    ensures ReplaceFirst("lead-gen", "-", " ") == "lead gen"
  {
    var s := "lead-gen";
    assert s[4..][..1] == "-";
    var i := IndexOf(s, "-").value;
    assert i <= 4;
    assert s[i..i + 1] == "-";
    assert s[i] == '-';
    assert i == 4;
  }

  lemma UpperEcommerce()
    ensures Upper("ecommerce") == "ECOMMERCE"
  {
    var u := Upper("ecommerce");
    assert u[0] == 'E' && u[1] == 'C' && u[2] == 'O' && u[3] == 'M' && u[4] == 'M' && u[5] == 'E' && u[6] == 'R' && u[7] == 'C' && u[8] == 'E';
  }

  lemma UpperBrand()
    ensures Upper("brand") == "BRAND"
  {
    var u := Upper("brand");
    assert u[0] == 'B' && u[1] == 'R' && u[2] == 'A' && u[3] == 'N' && u[4] == 'D';
  }

  lemma UpperLeadGen()
    ensures Upper("lead gen") == "LEAD GEN"
  {
    var u := Upper("lead gen");
    assert u[0] == 'L' && u[1] == 'E' && u[2] == 'A' && u[3] == 'D' && u[4] == ' ' && u[5] == 'G' && u[6] == 'E' && u[7] == 'N';
  }

  lemma UpperAwareness()
    ensures Upper("awareness") == "AWARENESS"
  {
    var u := Upper("awareness");
    assert u[0] == 'A' && u[1] == 'W' && u[2] == 'A' && u[3] == 'R' && u[4] == 'E' && u[5] == 'N' && u[6] == 'E' && u[7] == 'S' && u[8] == 'S';
  }

  /** The labels are ECOMMERCE, BRAND, LEAD GEN and AWARENESS: the hyphen
      of `lead-gen` becomes a space, and each category keeps its own label. */
  lemma CategoryLabelValues()
    ensures CategoryLabel(Ecommerce) == "ECOMMERCE" && CategoryLabel(Brand) == "BRAND"
    ensures CategoryLabel(LeadGen) == "LEAD GEN" && CategoryLabel(Awareness) == "AWARENESS"
  {
    assert CategoryLabel(Ecommerce) == "ECOMMERCE" by {
      ReplaceAbsent("ecommerce", '-', " ");
      UpperEcommerce();
    }
    assert CategoryLabel(Brand) == "BRAND" by {
      ReplaceAbsent("brand", '-', " ");
      UpperBrand();
    }
    assert CategoryLabel(LeadGen) == "LEAD GEN" by {
      LeadGenLabel();
      UpperLeadGen();
    }
    assert CategoryLabel(Awareness) == "AWARENESS" by {
      ReplaceAbsent("awareness", '-', " ");
      UpperAwareness();
    }
  }

  /** One row of the HTML report: twelve cells. */
  function HtmlRow(r: TableRow, show: real -> string, locale: real -> string, date: Date -> string)
    : (row: seq<HtmlCell>)
    ensures |row| == 12
    ensures row[0].text == r.campaign
    ensures row[1].cls == StatusClass(r.status) && row[11].cls == RoiClass(r.roi)
  {
    [ HtmlCell("", r.campaign),
      HtmlCell(StatusClass(r.status), Upper(StatusText(r.status))),
      HtmlCell("capitalize", CategoryLabel(r.category)),
      HtmlCell("capitalize", Upper(PlatformText(r.platform))),
      HtmlCell("", date(r.startDate)),
      HtmlCell("", date(r.endDate)),
      HtmlCell("", locale(r.impressions as real)),
      HtmlCell("", locale(r.clicks as real)),
      HtmlCell("", show(r.ctr) + "%"),
      HtmlCell("", "$" + locale(r.cost)),
      HtmlCell("", show(r.conversions as real)),
      HtmlCell(RoiClass(r.roi), show(r.roi) + "%") ]
  }

  function HtmlRows(data: seq<TableRow>, show: real -> string, locale: real -> string, date: Date -> string)
    : (rows: seq<seq<HtmlCell>>)
    ensures |rows| == |data|
    ensures forall i :: 0 <= i < |data| ==> rows[i] == HtmlRow(data[i], show, locale, date)
  {
    seq(|data|, i requires 0 <= i < |data| => HtmlRow(data[i], show, locale, date))
  }

  /** Each report row names its campaign, its status class tells the status
      apart, and its ROI is marked high above 250 and low below 200. */
  lemma ReportMeaning(data: seq<TableRow>, show: real -> string, locale: real -> string, date: Date -> string)
    ensures forall i :: 0 <= i < |data| ==> HtmlRows(data, show, locale, date)[i][0].text == data[i].campaign
    ensures forall i, j :: 0 <= i < |data| && 0 <= j < |data| ==>
      (HtmlRows(data, show, locale, date)[i][1].cls == HtmlRows(data, show, locale, date)[j][1].cls
       <==> data[i].status == data[j].status)
    ensures forall i :: 0 <= i < |data| ==>
      (HtmlRows(data, show, locale, date)[i][11].cls == "roi-high" <==> data[i].roi > 250.0)
    ensures forall i :: 0 <= i < |data| ==>
      (HtmlRows(data, show, locale, date)[i][11].cls == "roi-low" <==> data[i].roi < 200.0)
  {
    forall i, j | 0 <= i < |data| && 0 <= j < |data|
      ensures StatusClass(data[i].status) == StatusClass(data[j].status) ==> data[i].status == data[j].status
    {
      StatusClassInjective(data[i].status, data[j].status);
    }
  }

  // ------------------------------------------------------------------- button

  /** The button's state. `downloadOk` says whether the browser calls that
      start the download succeed. */
  class Button {
    const filename: string
    var isExporting: bool

    constructor (filename: string)
      ensures this.filename == filename && !isExporting
    {
      this.filename := filename;
      isExporting := false;
    }

    method ExportCsv(data: seq<TableRow>, timestamp: string, show: real -> string, downloadOk: bool)
      returns (file: Option<Download>)
      modifies this
      ensures old(isExporting) ==> file.None? && isExporting
      ensures !old(isExporting) ==> !isExporting
      ensures !old(isExporting) ==>
        file == if downloadOk then Some(CsvFile(CsvFileName(filename, timestamp), CsvContent(data, show))) else None
    {
      if isExporting {
        return None;
      }
      isExporting := true;
      if downloadOk {
        file := Some(CsvFile(CsvFileName(filename, timestamp), CsvContent(data, show)));
      } else {
        file := None;
      }
      isExporting := false;
    }

    method ExportHtml(data: seq<TableRow>, timestamp: string, show: real -> string,
                      locale: real -> string, date: Date -> string, downloadOk: bool)
      returns (file: Option<Download>)
      modifies this
      ensures old(isExporting) ==> file.None? && isExporting
      ensures !old(isExporting) ==> !isExporting
      ensures !old(isExporting) ==>
        file == if downloadOk then Some(HtmlReport(ReportFileName(filename, timestamp), HtmlRows(data, show, locale, date), Summarize(data))) else None
    {
      if isExporting {
        return None;
      }
      isExporting := true;
      if downloadOk {
        file := Some(HtmlReport(ReportFileName(filename, timestamp), HtmlRows(data, show, locale, date), Summarize(data)));
      } else {
        file := None;
      }
      isExporting := false;
    }
  }
}

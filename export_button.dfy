/** The export button of the dashboard: an eight-column CSV file with the
    campaign names quoted as RFC 4180 asks and a byte-order mark in front,
    an HTML report, and a flag that refuses a second export while one runs.
    Numbers are turned into text by `show` (`String(n)`) and `locale`
    (`toLocaleString`), both left abstract. */
module ExportButton {
  import opened Common
  import opened CampaignData
  import opened Csv
  import opened Report
  import opened Toasts

  /** The eight column names, from the campaign name to the ROI. */
  function Headers(): (names: seq<string>)
    ensures |names| == 8 && names[0] == "Campaign" && names[7] == "ROI (%)"
  {
    ["Campaign", "Status", "Impressions", "Clicks", "CTR (%)", "Cost ($)", "Conversions", "ROI (%)"]
  }

  const Bom: char := '\U{FEFF}'

  /** The eight fields of one CSV line. */
  function RowCells(r: TableRow, show: real -> string): (cells: seq<Cell>)
    ensures |cells| == 8
  {
    [ Quoted(r.campaign), Plain(StatusText(r.status)), Plain(show(r.impressions as real)),
      Plain(show(r.clicks as real)), Plain(show(r.ctr)), Plain(show(r.cost)),
      Plain(show(r.conversions as real)), Plain(show(r.roi)) ]
  }

  /** `headers.join(',')`, with each name followed by a comma except the
      last; `HeaderLineJoins` shows it is the join of the column names. */
  const HeaderLine: string :=
    ("Campaign" + ",") + (("Status" + ",") + (("Impressions" + ",") + (("Clicks" + ",")
    + (("CTR (%)" + ",") + (("Cost ($)" + ",") + (("Conversions" + ",") + "ROI (%)"))))))

  lemma HeaderLineJoins()
    ensures HeaderLine == Join(Headers(), ",")
  {
  }

  /** One line per row, in the order given. */
  function RowLines(data: seq<TableRow>, show: real -> string): (lines: seq<string>)
    ensures |lines| == |data|
    ensures forall i :: 0 <= i < |data| ==> lines[i] == RenderRecord(RowCells(data[i], show))
  {
    seq(|data|, i requires 0 <= i < |data| => RenderRecord(RowCells(data[i], show)))
  }

  /** The header line, then one line per row in the order given. */
  function CsvLines(data: seq<TableRow>, show: real -> string): (lines: seq<string>)
    ensures |lines| == |data| + 1
    ensures lines[0] == HeaderLine
    ensures forall i :: 0 <= i < |data| ==> lines[i + 1] == RenderRecord(RowCells(data[i], show))
  {
    var header, rows := HeaderLine, RowLines(data, show);
    ConsIndex(header, rows);
    [header] + rows
  }

  /** The lines joined by line breaks: the header comes first, and an
      empty table gives the header alone. */
  function CsvContent(data: seq<TableRow>, show: real -> string): (text: string)
    ensures StartsWith(text, HeaderLine)
    ensures data == [] ==> text == HeaderLine
  {
    JoinStartsWithFirst(CsvLines(data, show), "\n");
    Join(CsvLines(data, show), "\n")
  }

  /** The file: the byte-order mark, then the CSV text. */
  function FileContent(data: seq<TableRow>, show: real -> string): (content: string)
    ensures |content| >= 1 && content[0] == Bom && content[1..] == CsvContent(data, show)
  {
    [Bom] + CsvContent(data, show)
  }

  lemma HeadersPlain()
    ensures forall i :: 0 <= i < |Headers()| ==> PlainSafe(Headers()[i]) && '\n' !in Headers()[i]
  {
  }

  /** The header line reads back as exactly the eight column names. */
  lemma HeaderReadsBack()
    ensures ParseRecord(HeaderLine) == Some(Headers())
  {
    HeaderLineJoins();
    HeadersPlain();
    PlainRecordReadsBack(Headers());
  }

  /** A data line reads back as the row's eight values in column order, the
      campaign name exactly as it was, double quotes and commas included. */
  lemma RowReadsBack(r: TableRow, show: real -> string)
    requires SafeNumbers(show)
    ensures ParseRecord(RenderRecord(RowCells(r, show)))
         == Some([ r.campaign, StatusText(r.status), show(r.impressions as real), show(r.clicks as real),
                   show(r.ctr), show(r.cost), show(r.conversions as real), show(r.roi) ])
  {
    RowCellsOk(r, show);
    ParseRecordRender(RowCells(r, show));
    RowValues(r, show);
  }

  lemma RowCellsOk(r: TableRow, show: real -> string)
    requires SafeNumbers(show)
    ensures forall i :: 0 <= i < 8 ==> CellOk(RowCells(r, show)[i])
  {
    StatusWord(r.status);
    WordPlain(StatusText(r.status));
  }

  lemma RowValues(r: TableRow, show: real -> string)
    ensures Values(RowCells(r, show))
         == [ r.campaign, StatusText(r.status), show(r.impressions as real), show(r.clicks as real),
              show(r.ctr), show(r.cost), show(r.conversions as real), show(r.roi) ]
  {
  }

  /** When no name holds a line break, the text splits at `\n` into exactly
      the header and one line per row; an empty table gives the header alone. */
  lemma LinesSplitBack(data: seq<TableRow>, show: real -> string)
    requires SafeNumbers(show)
    requires forall i :: 0 <= i < |data| ==> '\n' !in data[i].campaign
    ensures Split(CsvContent(data, show), '\n') == CsvLines(data, show)
    ensures data == [] ==> CsvContent(data, show) == HeaderLine
  {
    LinesHaveNoNewline(data, show);
    SplitJoin(CsvLines(data, show), '\n');
  }

  lemma LinesHaveNoNewline(data: seq<TableRow>, show: real -> string)
    requires SafeNumbers(show)
    requires forall i :: 0 <= i < |data| ==> '\n' !in data[i].campaign
    ensures forall k :: 0 <= k < |data| + 1 ==> '\n' !in CsvLines(data, show)[k]
  {
    var lines := CsvLines(data, show);
    forall k | 0 <= k < |lines| ensures '\n' !in lines[k] {
      if k > 0 {
        var i := k - 1;
        assert lines[i + 1] == RenderRecord(RowCells(data[i], show));
        RowHasNoNewline(data[i], show);
      } else {
        HeaderLineJoins();
        HeadersPlain();
        JoinKeepsOut(Headers(), ",", '\n');
      }
    }
  }

  lemma RowHasNoNewline(r: TableRow, show: real -> string)
    requires SafeNumbers(show) && '\n' !in r.campaign
    ensures '\n' !in RenderRecord(RowCells(r, show))
  {
    var cells := RowCells(r, show);
    QuoteKeepsOut(r.campaign, '\n');
    StatusWord(r.status);
    WordPlain(StatusText(r.status));
    forall i | 0 <= i < |cells| ensures '\n' !in Renders(cells)[i] {
    }
    JoinKeepsOut(Renders(cells), ",", '\n');
  }

  // --------------------------------------------------------------------- HTML

  /** One row of the HTML report: eight cells, the status and ROI cells
      carrying their classes. */
  function HtmlRow(r: TableRow, show: real -> string, locale: real -> string): (row: seq<HtmlCell>)
    ensures |row| == 8
    ensures row[0].text == r.campaign
    ensures row[1].cls == StatusClass(r.status) && row[7].cls == RoiClass(r.roi)
  {
    [ HtmlCell("", r.campaign),
      HtmlCell(StatusClass(r.status), StatusText(r.status)),
      HtmlCell("", locale(r.impressions as real)),
      HtmlCell("", locale(r.clicks as real)),
      HtmlCell("", show(r.ctr) + "%"),
      HtmlCell("", "$" + locale(r.cost)),
      HtmlCell("", show(r.conversions as real)),
      HtmlCell(RoiClass(r.roi), show(r.roi) + "%") ]
  }

  function HtmlRows(data: seq<TableRow>, show: real -> string, locale: real -> string): (rows: seq<seq<HtmlCell>>)
    ensures |rows| == |data|
    ensures forall i :: 0 <= i < |data| ==> rows[i] == HtmlRow(data[i], show, locale)
  {
    seq(|data|, i requires 0 <= i < |data| => HtmlRow(data[i], show, locale))
  }

  /** The report lists the campaigns in the order given, marks exactly the
      rows with ROI above 250 as high and below 200 as low, and summarises
      the same rows. */
  lemma ReportMeaning(data: seq<TableRow>, show: real -> string, locale: real -> string)
    ensures forall i :: 0 <= i < |data| ==> HtmlRows(data, show, locale)[i][0].text == data[i].campaign
    ensures forall i :: 0 <= i < |data| ==>
      (HtmlRows(data, show, locale)[i][7].cls == "roi-high" <==> data[i].roi > 250.0)
    ensures forall i :: 0 <= i < |data| ==>
      (HtmlRows(data, show, locale)[i][7].cls == "roi-low" <==> data[i].roi < 200.0)
  {
  }

  // ------------------------------------------------------------------- button

  const CsvSuccess: string := "CSV exported successfully!"
  const CsvFailure: string := "CSV export failed. Please try again."
  const ReportSuccess: string := "Report downloaded! Open the HTML file and print to PDF."
  const ReportFailure: string := "PDF export failed. Please try again."

  /** The toast that ends an export: a success or an error message. */
  method Announce(center: ToastCenter, ok: bool, success: string, failure: string)
    requires center.Valid()
    modifies center
    ensures center.Valid()
    ensures center.toasts == Enqueue(old(center.toasts),
      Toast(old(center.toastId) + 1, if ok then Success else Error, if ok then success else failure))
    ensures center.toastId == old(center.toastId) + 1 && center.listeners == old(center.listeners)
    ensures center.deliveries == old(center.deliveries) + Broadcast(center.listeners, center.toasts)
  {
    var _ := center.ShowToast(if ok then Success else Error, if ok then success else failure);
  }

  /** The button's state. `downloadOk` says whether the browser calls that
      build and start the download succeed. */
  class Button {
    const filename: string
    var isExporting: bool

    constructor (filename: string)
      ensures this.filename == filename && !isExporting
    {
      this.filename := filename;
      isExporting := false;
    }

    method ExportCsv(data: seq<TableRow>, timestamp: string, show: real -> string,
                     downloadOk: bool, center: ToastCenter) returns (file: Option<Download>)
      requires center.Valid()
      modifies this, center
      ensures center.Valid()
      ensures old(isExporting) ==>
        file.None? && isExporting && center.toasts == old(center.toasts)
        && center.toastId == old(center.toastId) && center.listeners == old(center.listeners)
        && center.deliveries == old(center.deliveries)
      ensures !old(isExporting) ==> !isExporting
      ensures !old(isExporting) ==>
        file == if downloadOk then Some(CsvFile(CsvFileName(filename, timestamp), FileContent(data, show))) else None
      ensures !old(isExporting) ==>
        center.toasts == Enqueue(old(center.toasts),
          Toast(old(center.toastId) + 1, if downloadOk then Success else Error,
                if downloadOk then CsvSuccess else CsvFailure))
      ensures !old(isExporting) ==>
        center.toastId == old(center.toastId) + 1 && center.listeners == old(center.listeners)
        && center.deliveries == old(center.deliveries) + Broadcast(center.listeners, center.toasts)
    {
      if isExporting {
        return None;
      }
      isExporting := true;
      file := if downloadOk then Some(CsvFile(CsvFileName(filename, timestamp), FileContent(data, show))) else None;
      Announce(center, downloadOk, CsvSuccess, CsvFailure);
      isExporting := false;
    }

    method ExportReport(data: seq<TableRow>, timestamp: string, show: real -> string,
                        locale: real -> string, downloadOk: bool, center: ToastCenter)
      returns (file: Option<Download>)
      requires center.Valid()
      modifies this, center
      ensures center.Valid()
      ensures old(isExporting) ==>
        file.None? && isExporting && center.toasts == old(center.toasts)
        && center.toastId == old(center.toastId) && center.listeners == old(center.listeners)
        && center.deliveries == old(center.deliveries)
      ensures !old(isExporting) ==> !isExporting
      ensures !old(isExporting) ==>
        file == if downloadOk then Some(HtmlReport(ReportFileName(filename, timestamp), HtmlRows(data, show, locale), Summarize(data))) else None
      ensures !old(isExporting) ==>
        center.toasts == Enqueue(old(center.toasts),
          Toast(old(center.toastId) + 1, if downloadOk then Success else Error,
                if downloadOk then ReportSuccess else ReportFailure))
      ensures !old(isExporting) ==>
        center.toastId == old(center.toastId) + 1 && center.listeners == old(center.listeners)
        && center.deliveries == old(center.deliveries) + Broadcast(center.listeners, center.toasts)
    {
      if isExporting {
        return None;
      }
      isExporting := true;
      file := if downloadOk then Some(HtmlReport(ReportFileName(filename, timestamp), HtmlRows(data, show, locale), Summarize(data))) else None;
      Announce(center, downloadOk, ReportSuccess, ReportFailure);
      isExporting := false;
    }
  }
}

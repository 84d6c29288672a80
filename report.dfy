/** What both export buttons compute alike: the summary block of the HTML
    report, the ROI emphasis class and the date-stamped file names. */
module Report {
  import opened Common
  import opened CampaignData

  /** `data.reduce((sum, row) => sum + f(row), 0)`: a left fold, in which a
      single row sums to its own value. */
  function SumBy(s: seq<TableRow>, f: TableRow -> real): (total: real)
    ensures |s| == 1 ==> total == f(s[0])
  {
    if s == [] then 0.0 else SumBy(s[..|s| - 1], f) + f(s[|s| - 1])
  }

  lemma {:induction false} SumByAppend(a: seq<TableRow>, b: seq<TableRow>, f: TableRow -> real)
    ensures SumBy(a + b, f) == SumBy(a, f) + SumBy(b, f)
  {
    if b == [] {
      assert a + b == a;
    } else {
      assert (a + b)[..|a + b| - 1] == a + b[..|b| - 1];
      SumByAppend(a, b[..|b| - 1], f);
    }
  }

  /** The fold does not depend on the order of the rows: the sorted table
      and the rows handed to the exporter give the same totals. */
  lemma {:induction false} SumByPermutation(a: seq<TableRow>, b: seq<TableRow>, f: TableRow -> real)
    requires multiset(a) == multiset(b)
    ensures SumBy(a, f) == SumBy(b, f)
    decreases |a|
  {
    if a != [] {
      var x := a[|a| - 1];
      assert x in multiset(b);
      var k :| 0 <= k < |b| && b[k] == x;
      var rest := b[..k] + b[k + 1..];
      assert b == b[..k] + [x] + b[k + 1..];
      assert a == a[..|a| - 1] + [x];
      assert multiset(b) == multiset(b[..k]) + multiset{x} + multiset(b[k + 1..]);
      assert multiset(a) == multiset(a[..|a| - 1]) + multiset{x};
      assert multiset(rest) == multiset(b[..k]) + multiset(b[k + 1..]);
      assert multiset(a[..|a| - 1]) == multiset(a) - multiset{x};
      assert multiset(rest) == multiset(b) - multiset{x};
      SumByPermutation(a[..|a| - 1], rest, f);
      SumByAppend(b[..k] + [x], b[k + 1..], f);
      SumByAppend(b[..k], [x], f);
      SumByAppend(b[..k], b[k + 1..], f);
      assert SumBy([x], f) == f(x) by { assert [x][..0] == []; }
    }
  }

  /** A sum of terms that all lie in [lo, hi] lies in [n*lo, n*hi]. */
  lemma {:induction false} SumByBounds(s: seq<TableRow>, f: TableRow -> real, lo: real, hi: real)
    requires forall i :: 0 <= i < |s| ==> lo <= f(s[i]) <= hi
    ensures |s| as real * lo <= SumBy(s, f) <= |s| as real * hi
  {
    if s != [] {
      var init := s[..|s| - 1];
      SumByBounds(init, f, lo, hi);
      BoundStep(|init| as real, SumBy(init, f), f(s[|s| - 1]), lo, hi);
    }
  }

  /** One more term in [lo, hi] keeps a k-term sum within k times the bounds. */
  lemma BoundStep(k: real, sum: real, x: real, lo: real, hi: real)
    requires k * lo <= sum <= k * hi && lo <= x <= hi
    ensures (k + 1.0) * lo <= sum + x <= (k + 1.0) * hi
  {
  }

  /** The summary block of the report. The average is absent for an empty
      table, where the division yields NaN. */
  datatype Summary = Summary(
    totalCampaigns: nat,
    totalImpressions: real,
    totalClicks: real,
    totalCost: real,
    totalConversions: real,
    averageRoi: Option<real>)

  function Impressions(r: TableRow): real { r.impressions as real }
  function Clicks(r: TableRow): real { r.clicks as real }
  function Cost(r: TableRow): real { r.cost }
  function Conversions(r: TableRow): real { r.conversions as real }
  function Roi(r: TableRow): real { r.roi }

  function Summarize(data: seq<TableRow>): (s: Summary)
    ensures s.totalCampaigns == |data|
    ensures s.averageRoi.None? <==> data == []
  {
    Summary(|data|, SumBy(data, Impressions), SumBy(data, Clicks), SumBy(data, Cost),
            SumBy(data, Conversions),
            if data == [] then None else Some(SumBy(data, Roi) / |data| as real))
  }

  /** Reordering the rows does not change the summary. */
  lemma SummaryPermutation(a: seq<TableRow>, b: seq<TableRow>)
    requires multiset(a) == multiset(b)
    ensures Summarize(a) == Summarize(b)
  {
    assert |a| == |multiset(a)| == |b|;
    SumByPermutation(a, b, Impressions);
    SumByPermutation(a, b, Clicks);
    SumByPermutation(a, b, Cost);
    SumByPermutation(a, b, Conversions);
    SumByPermutation(a, b, Roi);
  }

  /** The totals of two tables laid end to end are the sums of their totals. */
  lemma SummaryAppend(a: seq<TableRow>, b: seq<TableRow>)
    ensures Summarize(a + b).totalCampaigns == Summarize(a).totalCampaigns + Summarize(b).totalCampaigns
    ensures Summarize(a + b).totalImpressions == Summarize(a).totalImpressions + Summarize(b).totalImpressions
    ensures Summarize(a + b).totalClicks == Summarize(a).totalClicks + Summarize(b).totalClicks
    ensures Summarize(a + b).totalCost == Summarize(a).totalCost + Summarize(b).totalCost
    ensures Summarize(a + b).totalConversions == Summarize(a).totalConversions + Summarize(b).totalConversions
  {
    SumByAppend(a, b, Impressions);
    SumByAppend(a, b, Clicks);
    SumByAppend(a, b, Cost);
    SumByAppend(a, b, Conversions);
  }

  /** The average ROI lies between the smallest and the largest ROI bound of
      the rows, and the counted totals are never negative. */
  lemma SummaryBounds(data: seq<TableRow>, lo: real, hi: real)
    requires forall i :: 0 <= i < |data| ==> lo <= data[i].roi <= hi
    ensures Summarize(data).averageRoi.Some? ==> lo <= Summarize(data).averageRoi.value <= hi
    ensures Summarize(data).totalImpressions >= 0.0 && Summarize(data).totalClicks >= 0.0
    ensures Summarize(data).totalConversions >= 0.0
  {
    SumByBounds(data, Roi, lo, hi);
    SumNonNegative(data, Impressions);
    SumNonNegative(data, Clicks);
    SumNonNegative(data, Conversions);
    if data != [] {
      AverageBetween(SumBy(data, Roi), |data| as real, lo, hi);
    }
  }

  /** A total between n*lo and n*hi averages to a value between lo and hi. */
  lemma AverageBetween(total: real, n: real, lo: real, hi: real)
    requires n > 0.0 && n * lo <= total <= n * hi
    ensures lo <= total / n <= hi
  {
    assert lo <= total / n by {
      assert lo * n <= total;
    }
    assert total / n <= hi by {
      assert total <= hi * n;
    }
  }

  lemma {:induction false} SumNonNegative(s: seq<TableRow>, f: TableRow -> real)
    requires forall r :: f(r) >= 0.0
    ensures SumBy(s, f) >= 0.0
  {
    if s != [] { SumNonNegative(s[..|s| - 1], f); }
  }

  lemma SumBySix(a: TableRow, b: TableRow, c: TableRow, d: TableRow, e: TableRow, g: TableRow, f: TableRow -> real)
    ensures SumBy([a, b, c, d, e, g], f) == f(a) + f(b) + f(c) + f(d) + f(e) + f(g)
  {
    assert [a][..0] == [];
    assert SumBy([a], f) == f(a);
    assert [a, b][..1] == [a];
    assert SumBy([a, b], f) == f(a) + f(b);
    assert [a, b, c][..2] == [a, b];
    assert SumBy([a, b, c], f) == f(a) + f(b) + f(c);
    assert [a, b, c, d][..3] == [a, b, c];
    assert SumBy([a, b, c, d], f) == f(a) + f(b) + f(c) + f(d);
    assert [a, b, c, d, e][..4] == [a, b, c, d];
    assert SumBy([a, b, c, d, e], f) == f(a) + f(b) + f(c) + f(d) + f(e);
    assert [a, b, c, d, e, g][..5] == [a, b, c, d, e];
  }

  /** The seed table's summary: six campaigns, 769,000 impressions, 19,830
      clicks, $32,180 spent, 615 conversions, an average ROI of 1535 / 6. */
  lemma FixtureSummary()
    ensures Summarize(CampaignTableData())
         == Summary(6, 769000.0, 19830.0, 32180.0, 615.0, Some(1535.0 / 6.0))
  {
    var d := CampaignTableData();
    assert d == [d[0], d[1], d[2], d[3], d[4], d[5]];
    SumBySix(d[0], d[1], d[2], d[3], d[4], d[5], Impressions);
    SumBySix(d[0], d[1], d[2], d[3], d[4], d[5], Clicks);
    SumBySix(d[0], d[1], d[2], d[3], d[4], d[5], Cost);
    SumBySix(d[0], d[1], d[2], d[3], d[4], d[5], Conversions);
    SumBySix(d[0], d[1], d[2], d[3], d[4], d[5], Roi);
  }

  // ---------------------------------------------------------------- the files

  /** A table cell of the HTML report: its class attribute and its text. */
  datatype HtmlCell = HtmlCell(cls: string, text: string)

  /** What an export hands to the browser: a CSV text, or an HTML report
      given by its table rows and its summary block. */
  datatype Download =
    | CsvFile(name: string, content: string)
    | HtmlReport(name: string, rows: seq<seq<HtmlCell>>, summary: Summary)

  // ------------------------------------------------------------------ classes

  /** The ROI cell's class: high above 250, low below 200, none between. */
  function RoiClass(roi: real): (c: string)
    ensures c == "roi-high" <==> roi > 250.0
    ensures c == "roi-low" <==> roi < 200.0
    ensures c == "" <==> 200.0 <= roi <= 250.0
  {
    if roi > 250.0 then "roi-high" else if roi < 200.0 then "roi-low" else ""
  }

  /** `status-` followed by the status: a different class for each status. */
  function StatusClass(s: Status): (c: string)
    ensures StartsWith(c, "status-") && c[|"status-"|..] == StatusText(s)
  {
    "status-" + StatusText(s)
  }

  lemma StatusClassInjective(a: Status, b: Status)
    ensures StatusClass(a) == StatusClass(b) ==> a == b
  {
    if StatusClass(a) == StatusClass(b) {
      assert StatusClass(a)[7..] == StatusClass(b)[7..];
      EnumTextsInjective();
    }
  }

  // --------------------------------------------------------------- file names

  /** `new Date().toISOString().split('T')[0]`: the date part of a timestamp. */
  function DatePart(timestamp: string): (d: string)
    ensures 'T' !in d
  {
    SplitHeadIsBefore(timestamp, 'T');
    Split(timestamp, 'T')[0]
  }

  function CsvFileName(base: string, timestamp: string): string
  {
    base + "_" + DatePart(timestamp) + ".csv"
  }

  function ReportFileName(base: string, timestamp: string): string
  {
    base + "_report_" + DatePart(timestamp) + ".html"
  }

  /** For an ISO timestamp `YYYY-MM-DDThh:mm:ss.sssZ` the file names carry
      exactly the calendar date: `<base>_<YYYY-MM-DD>.csv` and
      `<base>_report_<YYYY-MM-DD>.html`. */
  lemma FileNamesOfTimestamp(base: string, d: Date, time: string)
    ensures CsvFileName(base, IsoText(d) + "T" + time) == base + "_" + IsoText(d) + ".csv"
    ensures ReportFileName(base, IsoText(d) + "T" + time) == base + "_report_" + IsoText(d) + ".html"
  {
    var ts := IsoText(d) + "T" + time;
    SplitHeadIsBefore(ts, 'T');
    BeforeAppend(IsoText(d), "T" + time, 'T');
    assert ts == IsoText(d) + ("T" + time);
  }
}

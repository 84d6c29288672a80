/** The campaign record of the dashboard's table and its six seed rows. */
module CampaignData {
  import opened Common

  datatype Status = Active | Paused | Ended
  datatype Category = Ecommerce | Brand | LeadGen | Awareness
  datatype Platform = Google | Facebook | Instagram | LinkedIn | Twitter

  /** The string each enumeration value has in the source. */
  function StatusText(s: Status): string
  {
    match s
    case Active => "active"
    case Paused => "paused"
    case Ended => "ended"
  }

  function CategoryText(c: Category): string
  {
    match c
    case Ecommerce => "ecommerce"
    case Brand => "brand"
    case LeadGen => "lead-gen"
    case Awareness => "awareness"
  }

  function PlatformText(p: Platform): string
  {
    match p
    case Google => "google"
    case Facebook => "facebook"
    case Instagram => "instagram"
    case LinkedIn => "linkedin"
    case Twitter => "twitter"
  }

  /** Distinct enumeration values have distinct strings, so comparing the
      strings (as the filters and the dropdown do) is comparing the values. */
  lemma EnumTextsInjective()
    ensures forall a: Status, b: Status :: StatusText(a) == StatusText(b) ==> a == b
    ensures forall a: Category, b: Category :: CategoryText(a) == CategoryText(b) ==> a == b
    ensures forall a: Platform, b: Platform :: PlatformText(a) == PlatformText(b) ==> a == b
  {
  }

  /** Lower-case letters and hyphens only: no enumeration text needs quoting
      in a CSV field or breaks a line. */
  predicate Word(t: string)
  {
    forall i :: 0 <= i < |t| ==> ('a' <= t[i] <= 'z') || t[i] == '-'
  }

  lemma WordPlain(t: string)
    requires Word(t)
    ensures ',' !in t && '"' !in t && '\n' !in t
  {
    forall i | 0 <= i < |t| ensures t[i] != ',' && t[i] != '"' && t[i] != '\n' {
    }
  }

  lemma StatusWord(s: Status)
    ensures Word(StatusText(s))
  {
    match s
    case Active =>
    case Paused =>
    case Ended =>
  }

  lemma CategoryWord(c: Category)
    ensures Word(CategoryText(c))
  {
    match c
    case Ecommerce =>
    case Brand =>
    case LeadGen =>
    case Awareness =>
  }

  lemma PlatformWord(p: Platform)
    ensures Word(PlatformText(p))
  {
    match p
    case Google =>
    case Facebook =>
    case Instagram =>
    case LinkedIn =>
    case Twitter =>
  }

  // -------------------------------------------------------------- ISO dates

  type Year = y: nat | y <= 9999
  type Month = m: nat | 1 <= m <= 12 witness 1
  type Day = d: nat | 1 <= d <= 31 witness 1

  /** A calendar date as written `YYYY-MM-DD` in the records. */
  datatype Date = Date(year: Year, month: Month, day: Day)

  /** Chronological order, which is the order `new Date(...)` compares in. */
  predicate DateLe(a: Date, b: Date)
  {
    a.year < b.year
    || (a.year == b.year && a.month < b.month)
    || (a.year == b.year && a.month == b.month && a.day <= b.day)
  }

  function DigitChar(n: nat): char
    requires n < 10
  {
    ('0' as int + n) as char
  }

  /** `n` written with exactly `width` decimal digits, zero-padded. */
  function Digits(n: nat, width: nat): (r: string)
    requires n < Pow10(width)
    ensures |r| == width
    ensures forall i :: 0 <= i < |r| ==> '0' <= r[i] <= '9'
  {
    if width == 0 then "" else Digits(n / 10, width - 1) + [DigitChar(n % 10)]
  }

  function Pow10(k: nat): (r: nat)
    ensures r >= 1
  {
    if k == 0 then 1 else 10 * Pow10(k - 1)
  }

  /** The ISO 8601 text of a date: `YYYY-MM-DD`. */
  function IsoText(d: Date): (r: string)
    ensures |r| == 10 && r[4] == '-' && r[7] == '-'
    ensures 'T' !in r && ',' !in r && '"' !in r && '\n' !in r
  {
    Digits(d.year, 4) + "-" + Digits(d.month, 2) + "-" + Digits(d.day, 2)
  }

  // ---------------------------------------------------------------- records

  /** One row of the campaign table. Counts are natural numbers; CTR, cost and
      ROI are decimal numbers. */
  datatype TableRow = TableRow(
    id: string,
    campaign: string,
    status: Status,
    impressions: nat,
    clicks: nat,
    ctr: real,
    cost: real,
    conversions: nat,
    roi: real,
    startDate: Date,
    endDate: Date,
    category: Category,
    platform: Platform)

  /** The six seed campaigns. */
  function CampaignTableData(): (rows: seq<TableRow>)
    ensures |rows| == 6
  {
    [ TableRow("1", "Summer Sale 2024", Active, 125000, 3250, 2.6, 5420.0, 78, 240.0,
               Date(2024, 6, 1), Date(2024, 8, 31), Ecommerce, Google),
      TableRow("2", "Black Friday Promo", Active, 98000, 2890, 2.95, 4280.0, 102, 315.0,
               Date(2024, 11, 1), Date(2024, 11, 30), Ecommerce, Facebook),
      TableRow("3", "Holiday Collection", Paused, 67000, 1560, 2.33, 2890.0, 45, 180.0,
               Date(2024, 12, 1), Date(2024, 12, 31), Brand, Instagram),
      TableRow("4", "Spring Launch", Ended, 156000, 4120, 2.64, 6780.0, 134, 285.0,
               Date(2024, 3, 1), Date(2024, 5, 31), Ecommerce, Google),
      TableRow("5", "Product Demo", Active, 89000, 2340, 2.63, 3890.0, 67, 225.0,
               Date(2024, 7, 1), Date(2024, 9, 30), LeadGen, LinkedIn),
      TableRow("6", "Brand Awareness", Active, 234000, 5670, 2.42, 8920.0, 189, 290.0,
               Date(2024, 1, 1), Date(2024, 12, 31), Awareness, Facebook) ]
  }

  function Ids(rows: seq<TableRow>): (r: seq<string>)
    ensures |r| == |rows|
    ensures forall i :: 0 <= i < |rows| ==> r[i] == rows[i].id
  {
    seq(|rows|, i requires 0 <= i < |rows| => rows[i].id)
  }

  /** The seed rows carry the ids "1" to "6", pairwise distinct. */
  lemma FixtureIds()
    ensures Ids(CampaignTableData()) == ["1", "2", "3", "4", "5", "6"]
    ensures forall i, j :: 0 <= i < j < 6 ==> CampaignTableData()[i].id != CampaignTableData()[j].id
  {
  }

  /** Every seed campaign starts no later than it ends. */
  lemma FixtureDatesOrdered()
    ensures forall i :: 0 <= i < 6 ==> DateLe(CampaignTableData()[i].startDate, CampaignTableData()[i].endDate)
  {
  }

  /** Every seed ROI lies in [0, 1000] and every cost in [0, 50000]: the
      ranges the default filters admit. */
  lemma FixtureWithinDefaultRanges()
    ensures forall i :: 0 <= i < 6 ==>
      0.0 <= CampaignTableData()[i].roi <= 1000.0 && 0.0 <= CampaignTableData()[i].cost <= 50000.0
  {
  }
}

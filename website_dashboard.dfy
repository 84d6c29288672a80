/** The insights dashboard's derived figures: visitors per traffic source,
    page names for the bar chart, the colour band of a score, the badge
    colour of a site status and the cycling chart palette. */
module InsightsDashboard {
  import opened Common
  import opened WebsiteIntegration

  // ------------------------------------------------------------------ traffic

  datatype TrafficPoint = TrafficPoint(name: string, value: nat, count: nat)

  /** `Math.floor((uniqueVisitors * percentage) / 100)`: the largest whole
      number of visitors not above the share. */
  function VisitorCount(uniqueVisitors: nat, percentage: nat): (n: nat)
    ensures n * 100 <= uniqueVisitors * percentage < (n + 1) * 100
  {
    (uniqueVisitors * percentage) / 100
  }

  /** A share of at most a hundred per cent counts at most every visitor,
      and a larger share never counts fewer visitors. */
  lemma VisitorCountBounds(uniqueVisitors: nat, p: nat, q: nat)
    ensures p <= 100 ==> VisitorCount(uniqueVisitors, p) <= uniqueVisitors
    ensures p <= q ==> VisitorCount(uniqueVisitors, p) <= VisitorCount(uniqueVisitors, q)
    ensures VisitorCount(uniqueVisitors, 100) == uniqueVisitors
  {
    if p <= 100 {
      MulLe(uniqueVisitors, p, 100);
      DivLe(uniqueVisitors * p, uniqueVisitors * 100);
    }
    if p <= q {
      MulLe(uniqueVisitors, p, q);
      DivLe(uniqueVisitors * p, uniqueVisitors * q);
    }
  }

  lemma MulLe(a: nat, p: nat, q: nat)
    requires p <= q
    ensures a * p <= a * q
  {
  }

  lemma DivLe(x: nat, y: nat)
    requires x <= y
    ensures x / 100 <= y / 100
  {
  }

  /** `insights.trafficSources.map(...)`. */
  function TrafficData(sources: seq<TrafficSource>, uniqueVisitors: nat): (r: seq<TrafficPoint>)
    ensures |r| == |sources|
    ensures forall i :: 0 <= i < |sources| ==>
      r[i] == TrafficPoint(sources[i].source, sources[i].percentage, VisitorCount(uniqueVisitors, sources[i].percentage))
    ensures forall i :: 0 <= i < |sources| && sources[i].percentage == 100 ==> r[i].count == uniqueVisitors
  {
    seq(|sources|, i requires 0 <= i < |sources| =>
      TrafficPoint(sources[i].source, sources[i].percentage, VisitorCount(uniqueVisitors, sources[i].percentage)))
  }

  /** Every source keeps its name and share, and no source is credited with
      more visitors than the site has. */
  lemma TrafficDataMeaning(sources: seq<TrafficSource>, uniqueVisitors: nat)
    requires forall i :: 0 <= i < |sources| ==> sources[i].percentage <= 100
    ensures forall i :: 0 <= i < |sources| ==>
      TrafficData(sources, uniqueVisitors)[i].name == sources[i].source
      && TrafficData(sources, uniqueVisitors)[i].value == sources[i].percentage
      && TrafficData(sources, uniqueVisitors)[i].count <= uniqueVisitors
  {
    forall i | 0 <= i < |sources|
      ensures TrafficData(sources, uniqueVisitors)[i].count <= uniqueVisitors
    {
      VisitorCountBounds(uniqueVisitors, sources[i].percentage, sources[i].percentage);
    }
  }

  // -------------------------------------------------------------------- pages

  datatype PagePoint = PagePoint(name: string, views: nat)

  /** `page === '/' ? 'Home' : page.replace('/', '')`: the root is Home and
      any other path loses at most one character, its first slash. */
  function PageName(page: string): (name: string)
    ensures page == "/" ==> name == "Home"
    ensures page != "/" ==> |name| == |page| - 1 || name == page
    ensures page != "/" && Contains(page, "/") ==> |name| == |page| - 1
  {
    if page == "/" then "Home" else ReplaceFirst(page, "/", "")
  }

  /** A path `/<rest>` other than the root is named by `rest`; the root is
      named `Home`. */
  lemma PageNameMeaning(rest: string)
    ensures PageName("/") == "Home"
    ensures rest != [] ==> PageName("/" + rest) == rest
  {
    if rest != [] {
      var page := "/" + rest;
      assert StartsWith(page, "/") by { assert page[..1] == "/"; }
      assert page[1..] == rest;
    }
  }

  function PagesData(pages: seq<PageVisits>): (r: seq<PagePoint>)
    ensures |r| == |pages|
    ensures forall i :: 0 <= i < |pages| ==> r[i] == PagePoint(PageName(pages[i].page), pages[i].views)
    ensures forall i :: 0 <= i < |pages| && pages[i].page == "/" ==> r[i].name == "Home"
  {
    seq(|pages|, i requires 0 <= i < |pages| => PagePoint(PageName(pages[i].page), pages[i].views))
  }

  /** The analyser's four pages are charted as Home, about, products and
      contact, with their views unchanged. */
  lemma MockPageNames(home: nat, about: nat, products: nat, contact: nat)
    ensures PagesData([ PageVisits("/", home), PageVisits("/about", about),
                        PageVisits("/products", products), PageVisits("/contact", contact) ])
         == [ PagePoint("Home", home), PagePoint("about", about),
              PagePoint("products", products), PagePoint("contact", contact) ]
  {
    PagesOfFour(PageVisits("/", home), PageVisits("/about", about),
                PageVisits("/products", products), PageVisits("/contact", contact));
    AboutName();
    ProductsName();
    ContactName();
  }

  lemma PagesOfFour(p: PageVisits, q: PageVisits, u: PageVisits, v: PageVisits)
    ensures PagesData([p, q, u, v])
         == [ PagePoint(PageName(p.page), p.views), PagePoint(PageName(q.page), q.views),
              PagePoint(PageName(u.page), u.views), PagePoint(PageName(v.page), v.views) ]
  {
  }

  lemma AboutName()
    ensures PageName("/about") == "about"
  {
    PathName("about");
  }

  lemma ProductsName()
    ensures PageName("/products") == "products"
  {
    PathName("products");
  }

  lemma ContactName()
    ensures PageName("/contact") == "contact"
  {
    PathName("contact");
  }

  lemma PathName(rest: string)
    requires rest != []
    ensures PageName("/" + rest) == rest
  {
    PageNameMeaning(rest);
  }

  // ------------------------------------------------------------------- scores

  datatype Band = Green | Yellow | Red

  /** The bar colour of a performance or SEO score. */
  function ScoreBand(score: int): (b: Band)
    ensures b == Green <==> score >= 90
    ensures b == Yellow <==> 70 <= score < 90
    ensures b == Red <==> score < 70
  {
    if score >= 90 then Green else if score >= 70 then Yellow else Red
  }

  /** The bar class of a band: each band has its own colour. */
  function BandClass(b: Band): (cls: string)
    ensures cls == "bg-green-500" <==> b == Green
    ensures cls == "bg-yellow-500" <==> b == Yellow
    ensures cls == "bg-red-500" <==> b == Red
  {
    match b
    case Green => "bg-green-500"
    case Yellow => "bg-yellow-500"
    case Red => "bg-red-500"
  }

  function BandRank(b: Band): nat
  {
    match b
    case Red => 0
    case Yellow => 1
    case Green => 2
  }

  /** A higher score never gets a worse band. */
  lemma ScoreBandMonotone(s: int, t: int)
    requires s <= t
    ensures BandRank(ScoreBand(s)) <= BandRank(ScoreBand(t))
  {
  }

  /** The analyser's scores start at 70, so neither bar is ever red. */
  lemma MockScoresNeverRed(url: string, host: string, d: Draws, now: string)
    ensures ScoreBand(MockInsights(url, host, d, now).performanceScore) != Red
    ensures ScoreBand(MockInsights(url, host, d, now).seoScore) != Red
  {
  }

  // ------------------------------------------------------------------- status

  const OnlineColor: string := "bg-green-100 text-green-800 dark:bg-green-900 dark:text-green-300"
  const SlowColor: string := "bg-yellow-100 text-yellow-800 dark:bg-yellow-900 dark:text-yellow-300"
  const OfflineColor: string := "bg-red-100 text-red-800 dark:bg-red-900 dark:text-red-300"
  const DefaultColor: string := "bg-gray-100 text-gray-800 dark:bg-gray-900 dark:text-gray-300"

  /** `getStatusColor`: a class for every string. */
  function StatusColor(status: string): (c: string)
    ensures c in {OnlineColor, SlowColor, OfflineColor, DefaultColor}
    ensures c == DefaultColor <==> status != "online" && status != "slow" && status != "offline"
  {
    if status == "online" then OnlineColor
    else if status == "slow" then SlowColor
    else if status == "offline" then OfflineColor
    else DefaultColor
  }

  /** The three statuses get three different colours, each different from
      the one every other string gets. */
  lemma StatusColorsDistinct(other: string)
    requires other != "online" && other != "slow" && other != "offline"
    ensures StatusColor("online") != StatusColor("slow")
    ensures StatusColor("online") != StatusColor("offline")
    ensures StatusColor("slow") != StatusColor("offline")
    ensures StatusColor(other) == DefaultColor
    ensures DefaultColor != StatusColor("online") && DefaultColor != StatusColor("slow")
    ensures DefaultColor != StatusColor("offline")
  {
  }

  /** Every status the analyser produces has its own colour. */
  lemma SiteStatusColor(s: SiteStatus)
    ensures StatusColor(SiteStatusText(s)) != DefaultColor
  {
    StatusColorsDistinct("");
  }

  // ------------------------------------------------------------------ palette

  const Colors: seq<string> := ["#0088FE", "#00C49F", "#FFBB28", "#FF8042", "#8884D8"]

  /** `COLORS[index % COLORS.length]`: always a palette colour, repeating
      every five entries. */
  function ColorAt(index: nat): (c: string)
    ensures c in Colors
    ensures c == Colors[index % |Colors|]
  {
    Colors[index % |Colors|]
  }

  lemma ColorsCycle(index: nat)
    ensures ColorAt(index + |Colors|) == ColorAt(index)
    ensures index < |Colors| ==> ColorAt(index) == Colors[index]
  {
  }
}

/** The website analyser: the URL the user typed is checked, given an
    `https://` scheme when it has none, and handed to a mock analysis that
    derives a title from the host name and draws its figures at random.
    The URL parser is a parameter `parseHost` (None when the text is not a
    URL, the host name otherwise) and every random draw is an arbitrary
    natural number reduced into the range the source scales it to. */
module WebsiteIntegration {
  import opened Common

  datatype SiteStatus = Online | Offline | Slow

  function SiteStatusText(s: SiteStatus): string
  {
    match s
    case Online => "online"
    case Offline => "offline"
    case Slow => "slow"
  }

  datatype PageVisits = PageVisits(page: string, views: nat)

  datatype TrafficSource = TrafficSource(source: string, percentage: nat)

  /** The analysis result. Load time, bounce rate and session length are
      floating-point or formatted figures and are not modelled. */
  datatype Insights = Insights(
    url: string,
    title: string,
    status: SiteStatus,
    pageViews: nat,
    uniqueVisitors: nat,
    topPages: seq<PageVisits>,
    trafficSources: seq<TrafficSource>,
    performanceScore: nat,
    seoScore: nat,
    lastUpdated: string)

  // ------------------------------------------------------------ normalisation

  /** A URL that already names the web scheme. */
  predicate HasScheme(u: string)
  {
    StartsWith(u, "http://") || StartsWith(u, "https://")
  }

  /** The test as written: any text beginning with the four letters `http`
      is taken to carry its scheme. */
  function NormalizeAsWritten(u: string): (r: string)
    ensures StartsWith(r, "http")
  {
    if StartsWith(u, "http") then u else "https://" + u
  }

  /** The rule as written is idempotent: a normalised text is left as it is. */
  lemma NormalizeAsWrittenIdempotent(u: string)
    ensures NormalizeAsWritten(NormalizeAsWritten(u)) == NormalizeAsWritten(u)
  {
    assert StartsWith(NormalizeAsWritten(u), "http");
  }

  /** A host name that merely begins with `http` is left without a scheme,
      so the URL parser refuses it while `example.org` is accepted. */
  lemma AsWrittenKeepsSchemelessHost()
    ensures NormalizeAsWritten("httpbin.org") == "httpbin.org"
    ensures !HasScheme(NormalizeAsWritten("httpbin.org"))
    ensures Normalize("httpbin.org") == "https://httpbin.org"
  {
    assert "httpbin.org"[..4] == "http";
    assert "httpbin.org"[..7] != "http://" by { assert "httpbin.org"[4] == 'b'; }
    assert "httpbin.org"[..8] != "https://" by { assert "httpbin.org"[4] == 'b'; }
  }

  /** The normalisation the analyser uses: the `https://` scheme is added
      exactly when the text names neither web scheme. */
  function Normalize(u: string): (r: string)
    ensures HasScheme(u) ==> r == u
    ensures !HasScheme(u) ==> r == "https://" + u
  {
    if HasScheme(u) then u else "https://" + u
  }

  /** The result always names a web scheme, and normalising twice changes
      nothing more than normalising once. */
  lemma NormalizeMeaning(u: string)
    ensures HasScheme(Normalize(u))
    ensures Normalize(Normalize(u)) == Normalize(u)
  {
    if !HasScheme(u) {
      var r := "https://" + u;
      assert r[..8] == "https://";
    }
  }

  /** The as-written test and the corrected one agree on every text that
      does not begin with `http`. */
  lemma NormalizeAgrees(u: string)
    requires !StartsWith(u, "http")
    ensures Normalize(u) == NormalizeAsWritten(u)
  {
  }

  // -------------------------------------------------------------------- title

  /** `${domain.replace('www.', '').split('.')[0]} Analytics`. */
  function Title(host: string): (t: string)
    ensures |t| >= |" Analytics"| && t[|t| - |" Analytics"|..] == " Analytics"
    ensures '.' !in t[..|t| - |" Analytics"|]
  {
    var name := Before(ReplaceFirst(host, "www.", ""), '.');
    assert (name + " Analytics")[..|name|] == name;
    name + " Analytics"
  }

  /** `www.<name>.<rest>` is titled by its name. */
  lemma TitleOfWwwHost(name: string, rest: string)
    requires '.' !in name
    ensures Title("www." + name + "." + rest) == name + " Analytics"
  {
    var host := "www." + name + "." + rest;
    assert StartsWith(host, "www.") by { assert host[..4] == "www."; }
    assert ReplaceFirst(host, "www.", "") == name + ("." + rest) by {
      assert host[4..] == name + ("." + rest);
    }
    BeforeAppend(name, "." + rest, '.');
  }

  /** A host without `www.` is titled by its first label. */
  lemma TitleOfPlainHost(name: string, rest: string)
    requires '.' !in name
    requires !Contains(name + "." + rest, "www.")
    ensures Title(name + "." + rest) == name + " Analytics"
  {
    BeforeAppend(name, "." + rest, '.');
    assert name + "." + rest == name + ("." + rest);
  }

  // ------------------------------------------------------------- mock figures

  /** The random draws of one analysis, before they are scaled. */
  datatype Draws = Draws(
    slow: bool,
    pageViews: nat, uniqueVisitors: nat,
    home: nat, about: nat, products: nat, contact: nat,
    organic: nat, direct: nat, social: nat, referral: nat,
    performance: nat, seo: nat)

  /** `Math.floor(Math.random() * n) + base` for a draw `d`. */
  function Scaled(d: nat, n: nat, base: nat): (r: nat)
    requires n > 0
    ensures base <= r < base + n
  {
    d % n + base
  }

  /** `analyzeWebsite`: the mock result for a normalised URL whose host name
      is `host`, stamped with the time `now`. */
  function MockInsights(url: string, host: string, d: Draws, now: string): (r: Insights)
    ensures r.url == url && r.title == Title(host) && r.lastUpdated == now
    ensures r.status != Offline
    ensures 10000 <= r.pageViews <= 59999 && 5000 <= r.uniqueVisitors <= 29999
    ensures 70 <= r.performanceScore <= 99 && 75 <= r.seoScore <= 99
    ensures |r.topPages| == 4 && |r.trafficSources| == 4
    ensures forall i :: 0 <= i < 4 ==> 5 <= r.trafficSources[i].percentage <= 69
    ensures forall i :: 0 <= i < 4 ==> 200 <= r.topPages[i].views <= 6999
  {
    Insights(
      url, Title(host), if d.slow then Slow else Online,
      Scaled(d.pageViews, 50000, 10000), Scaled(d.uniqueVisitors, 25000, 5000),
      MockPages(d), MockSources(d),
      Scaled(d.performance, 30, 70), Scaled(d.seo, 25, 75), now)
  }

  /** The four pages with their drawn views. */
  function MockPages(d: Draws): (pages: seq<PageVisits>)
    ensures |pages| == 4
    ensures pages[0].page == "/" && 2000 <= pages[0].views < 7000
    ensures pages[1].page == "/about" && 500 <= pages[1].views < 2500
    ensures pages[2].page == "/products" && 1000 <= pages[2].views < 4000
    ensures pages[3].page == "/contact" && 200 <= pages[3].views < 1200
    ensures forall i :: 0 <= i < 4 ==> 200 <= pages[i].views <= 6999
  {
    [ PageVisits("/", Scaled(d.home, 5000, 2000)),
      PageVisits("/about", Scaled(d.about, 2000, 500)),
      PageVisits("/products", Scaled(d.products, 3000, 1000)),
      PageVisits("/contact", Scaled(d.contact, 1000, 200)) ]
  }

  /** The four traffic sources with their drawn shares. */
  function MockSources(d: Draws): (sources: seq<TrafficSource>)
    ensures |sources| == 4
    ensures sources[0].source == "Organic Search" && 40 <= sources[0].percentage < 70
    ensures sources[1].source == "Direct" && 20 <= sources[1].percentage < 40
    ensures sources[2].source == "Social Media" && 10 <= sources[2].percentage < 25
    ensures sources[3].source == "Referral" && 5 <= sources[3].percentage < 15
    ensures forall i :: 0 <= i < 4 ==> 5 <= sources[i].percentage <= 69
  {
    [ TrafficSource("Organic Search", Scaled(d.organic, 30, 40)),
      TrafficSource("Direct", Scaled(d.direct, 20, 20)),
      TrafficSource("Social Media", Scaled(d.social, 15, 10)),
      TrafficSource("Referral", Scaled(d.referral, 10, 5)) ]
  }

  function PercentTotal(sources: seq<TrafficSource>): nat
  {
    if sources == [] then 0 else sources[0].percentage + PercentTotal(sources[1..])
  }

  /** The four traffic shares are drawn independently: together they make
      between 75 and 146 per cent, so they need not add up to the whole. */
  lemma TrafficShareTotal(url: string, host: string, d: Draws, now: string)
    ensures 75 <= PercentTotal(MockInsights(url, host, d, now).trafficSources) <= 146
    ensures d.organic % 30 == 29 && d.direct % 20 == 19 ==>
      PercentTotal(MockInsights(url, host, d, now).trafficSources) > 100
  {
    var s := MockInsights(url, host, d, now).trafficSources;
    assert s[3..][1..] == [];
    assert s[2..][1..] == s[3..];
    assert s[1..][1..] == s[2..];
    assert PercentTotal(s[3..]) == s[3].percentage;
    assert PercentTotal(s[2..]) == s[2].percentage + PercentTotal(s[3..]);
    assert PercentTotal(s[1..]) == s[1].percentage + PercentTotal(s[2..]);
    assert PercentTotal(s) == s[0].percentage + s[1].percentage + s[2].percentage + s[3].percentage;
  }

  // -------------------------------------------------------------------- state

  const EmptyUrl: string := "Please enter a website URL"
  const InvalidUrl: string := "Please enter a valid URL"

  /** The component's state. `reported` lists, in order, every result handed
      to `onWebsiteAnalyzed`. */
  class Analyzer {
    var url: string
    var isAnalyzing: bool
    var currentWebsite: Option<Insights>
    var error: string
    var reported: seq<Insights>

    constructor ()
      ensures url == "" && !isAnalyzing && currentWebsite.None? && error == "" && reported == []
    {
      url := "";
      isAnalyzing := false;
      currentWebsite := None;
      error := "";
      reported := [];
    }

    /** The input's `onChange`. */
    method SetUrl(u: string)
      modifies this
      ensures url == u
      ensures isAnalyzing == old(isAnalyzing) && currentWebsite == old(currentWebsite)
      ensures error == old(error) && reported == old(reported)
    {
      url := u;
    }

    /** `analyzeUrl`: a text the parser refuses sets the error and changes
        nothing else; otherwise the analysis runs, its result is shown and
        reported, and the input shows the normalised URL. */
    method AnalyzeUrl(websiteUrl: string, parseHost: string -> Option<string>, d: Draws, now: string)
      modifies this
      ensures parseHost(Normalize(websiteUrl)).None? ==>
        error == InvalidUrl && url == old(url) && isAnalyzing == old(isAnalyzing)
        && currentWebsite == old(currentWebsite) && reported == old(reported)
      ensures parseHost(Normalize(websiteUrl)).Some? ==>
        var result := MockInsights(Normalize(websiteUrl), parseHost(Normalize(websiteUrl)).value, d, now);
        error == "" && !isAnalyzing && url == Normalize(websiteUrl)
        && currentWebsite == Some(result) && reported == old(reported) + [result]
    {
      var normalized := Normalize(websiteUrl);
      var parsed := parseHost(normalized);
      if parsed.None? {
        error := InvalidUrl;
        return;
      }
      error := "";
      isAnalyzing := true;
      var insights := MockInsights(normalized, parsed.value, d, now);
      currentWebsite := Some(insights);
      reported := reported + [insights];
      url := normalized;
      isAnalyzing := false;
    }

    /** `handleAnalyze`: an empty input is refused before any parsing. */
    method HandleAnalyze(parseHost: string -> Option<string>, d: Draws, now: string)
      modifies this
      ensures old(url) == "" ==>
        error == EmptyUrl && url == old(url) && isAnalyzing == old(isAnalyzing)
        && currentWebsite == old(currentWebsite) && reported == old(reported)
      ensures old(url) != "" && parseHost(Normalize(old(url))).None? ==>
        error == InvalidUrl && url == old(url) && isAnalyzing == old(isAnalyzing)
        && currentWebsite == old(currentWebsite) && reported == old(reported)
      ensures old(url) != "" && parseHost(Normalize(old(url))).Some? ==>
        var result := MockInsights(Normalize(old(url)), parseHost(Normalize(old(url))).value, d, now);
        error == "" && !isAnalyzing && url == Normalize(old(url))
        && currentWebsite == Some(result) && reported == old(reported) + [result]
    {
      if url == "" {
        error := EmptyUrl;
        return;
      }
      AnalyzeUrl(url, parseHost, d, now);
    }
  }
}

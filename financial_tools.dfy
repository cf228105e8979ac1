/**
 * The deterministic parts of the financial tools (tools/gadk/financial_tools.py):
 * the market table and its symbol suffixes, the conversion to Yahoo Finance
 * symbols, number parsing, the earnings and news report layouts, and the
 * parser that turns a Google search report into news articles.
 *
 * The HTTP requests, the clock and the Google search are parameters: a
 * report's timestamp is given as `now`, the search as a function from the
 * query and the result count to its outcome.
 */
module FinancialTools {
  import opened Wrappers
  import opened Text
  import opened Json

  // ---------------------------------------------------------------- markets

  /** One entry of the market table. */
  datatype MarketConfig = MarketConfig(marketName: string, suffix: string, currency: string, examples: seq<string>)

  const SupportedMarkets: seq<string> := ["US", "UK", "GERMANY", "FRANCE"]

  function MarketConfigOf(market: string): (r: Option<MarketConfig>)
    ensures r.Some? <==> market in SupportedMarkets
    ensures market == "US" ==> r.value.suffix == ""
  {
    if market == "US" then Some(MarketConfig("United States (NASDAQ/NYSE)", "", "USD", ["AAPL", "MSFT", "GOOGL", "TSLA"]))
    else if market == "UK" then Some(MarketConfig("United Kingdom (LSE)", ".L", "GBP", ["BARC.L", "BP.L", "SHEL.L", "AZN.L"]))
    else if market == "GERMANY" then Some(MarketConfig("Germany (XETRA)", ".DE", "EUR", ["BMW.DE", "SAP.DE", "SIE.DE", "ALV.DE"]))
    else if market == "FRANCE" then Some(MarketConfig("France (Euronext Paris)", ".PA", "EUR", ["MC.PA", "OR.PA", "AI.PA", "SAN.PA"]))
    else None
  }

  /** The success dictionary of `_get_market_info`. */
  datatype MarketInfo = MarketInfo(marketName: string, currency: string, symbol: string, examples: seq<string>)

  /**
   * `_get_market_info`: an error for a market outside the table; otherwise
   * the market's details, with its suffix appended to the symbol outside
   * the US unless the symbol already ends with it.
   */
  function GetMarketInfo(market: string, symbol: string): (r: Result<MarketInfo>)
    ensures r.Err? <==> market !in SupportedMarkets
    ensures r.Ok? ==>
      var suffix := MarketConfigOf(market).value.suffix;
      && EndsWith(r.value.symbol, suffix)
      && (r.value.symbol == symbol || r.value.symbol == symbol + suffix)
      && (EndsWith(symbol, suffix) ==> r.value.symbol == symbol)
    ensures market == "US" ==> r.Ok? && r.value.symbol == symbol
    ensures r.Ok? ==>
      var config := MarketConfigOf(market).value;
      r.value.marketName == config.marketName && r.value.currency == config.currency &&
      r.value.examples == config.examples
  {
    match MarketConfigOf(market)
    case None =>
      Err("Unsupported market '" + market + "'. Supported markets: US, UK, GERMANY, FRANCE")
    case Some(config) =>
      var suffixed := if market != "US" && !EndsWith(symbol, config.suffix) then symbol + config.suffix else symbol;
      assert EndsWith(symbol + config.suffix, config.suffix) by {
        assert (symbol + config.suffix)[|symbol|..] == config.suffix;
      }
      Ok(MarketInfo(config.marketName, config.currency, suffixed, config.examples))
  }

  /** Running a symbol through `_get_market_info` twice changes nothing more. */
  lemma MarketInfoIdempotent(market: string, symbol: string)
    requires GetMarketInfo(market, symbol).Ok?
    ensures GetMarketInfo(market, GetMarketInfo(market, symbol).value.symbol) == GetMarketInfo(market, symbol)
  {
    var suffix := MarketConfigOf(market).value.suffix;
    var once := GetMarketInfo(market, symbol).value.symbol;
    assert EndsWith(once, suffix);
  }

  // ---------------------------------------------------------- Yahoo symbols

  /** The suffix Yahoo Finance uses for a market; none for the US or any other market. */
  function YahooSuffix(market: string): string
  {
    if market == "GERMANY" then ".DE"
    else if market == "UK" then ".L"
    else if market == "FRANCE" then ".PA"
    else ""
  }

  /** The symbol with every `.DE`, then every `.L`, then every `.PA` removed. */
  function WithoutExchangeSuffixes(symbol: string): string
  {
    Replace(Replace(Replace(symbol, ".DE", ""), ".L", ""), ".PA", "")
  }

  /** `_convert_to_yahoo_symbol`. */
  function ConvertToYahooSymbol(symbol: string, market: string): (r: string)
    ensures EndsWith(r, YahooSuffix(market))
  {
    var clean := WithoutExchangeSuffixes(symbol);
    assert (clean + YahooSuffix(market))[|clean|..] == YahooSuffix(market);
    clean + YahooSuffix(market)
  }

  /** Replacing a dotted target changes nothing in a text without dots. */
  lemma {:induction false} ReplaceDotFree(t: string, target: string)
    requires target != [] && target[0] == '.' && '.' !in t
    ensures Replace(t, target, "") == t
    decreases |t|
  {
    if |t| >= |target| {
      assert t[..|target|][0] == t[0];
      ReplaceDotFree(t[1..], target);
      assert t == [t[0]] + t[1..];
    }
  }

  /** A dotted target can only be found after a dot-free prefix. */
  lemma {:induction false} ReplaceAfterDotFree(s: string, u: string, target: string)
    requires target != [] && target[0] == '.' && '.' !in s
    ensures Replace(s + u, target, "") == s + Replace(u, target, "")
    decreases |s|
  {
    if s != [] {
      var t := s + u;
      assert s[0] != '.';
      if |t| >= |target| {
        assert t[..|target|][0] == s[0];
        assert t[1..] == s[1..] + u;
        ReplaceAfterDotFree(s[1..], u, target);
        assert Replace(t, target, "") == [s[0]] + (s[1..] + Replace(u, target, ""));
        assert s == [s[0]] + s[1..];
      } else {
        assert |u| < |target|;
      }
    } else {
      assert s + u == u;
    }
  }

  /** The suffixes are removed from the end of a dot-free symbol. */
  lemma WithoutSuffixesAfterDotFree(s: string, u: string)
    requires '.' !in s
    ensures WithoutExchangeSuffixes(s + u) == s + WithoutExchangeSuffixes(u)
  {
    ReplaceAfterDotFree(s, u, ".DE");
    var u1 := Replace(u, ".DE", "");
    ReplaceAfterDotFree(s, u1, ".L");
    var u2 := Replace(u1, ".L", "");
    ReplaceAfterDotFree(s, u2, ".PA");
  }

  /** Each exchange suffix, and the empty one, disappears entirely. */
  lemma YahooSuffixRemoved(market: string)
    ensures WithoutExchangeSuffixes(YahooSuffix(market)) == ""
  {
    var u := YahooSuffix(market);
    if u == ".L" {
      assert Replace(".L", ".DE", "") == ".L";
      assert Replace(".L", ".L", "") == "";
    } else if u == ".PA" {
      ReplaceDotFree("PA", ".DE");
      assert Replace(".PA", ".DE", "") == ".PA" by {
        assert ".PA"[..3][1] != ".DE"[1];
        assert ".PA"[1..] == "PA";
      }
      ReplaceDotFree("PA", ".L");
      assert Replace(".PA", ".L", "") == ".PA" by {
        assert ".PA"[..2][1] != ".L"[1];
        assert ".PA"[1..] == "PA";
      }
      assert Replace(".PA", ".PA", "") == "";
    } else if u == ".DE" {
      assert Replace(".DE", ".DE", "") == "";
    }
  }

  /**
   * A dot-free symbol listed on any market converts to the Yahoo symbol of
   * any other market: the old suffix is dropped and the new one appended.
   * With the same market twice, the conversion is idempotent.
   */
  lemma YahooRelisting(s: string, from: string, to: string)
    requires '.' !in s
    ensures ConvertToYahooSymbol(s + YahooSuffix(from), to) == s + YahooSuffix(to)
  {
    WithoutSuffixesAfterDotFree(s, YahooSuffix(from));
    YahooSuffixRemoved(from);
    assert s + "" == s;
  }

  /** For a dot-free symbol outside the US, Yahoo's symbol is the one `_get_market_info` gives. */
  lemma YahooAgreesWithMarketInfo(s: string, market: string)
    requires '.' !in s && market in ["UK", "GERMANY", "FRANCE"]
    ensures ConvertToYahooSymbol(s, market) == GetMarketInfo(market, s).value.symbol
  {
    YahooRelisting(s, "US", market);
    assert s + "" == s;
    var suffix := YahooSuffix(market);
    assert !EndsWith(s, suffix) by {
      if |suffix| <= |s| {
        assert s[|s| - |suffix|..][0] != suffix[0];
      }
    }
  }

  // ---------------------------------------------------------------- numbers

  /** `_parse_number`: `None` for `"N/A"`, `None` and `""`, otherwise `float()` of the value when it succeeds. */
  function ParseNumber(value: Json, readFloat: string -> Option<real>): (r: Option<real>)
    ensures value in [JNull, JString("N/A"), JString("")] ==> r == None
    ensures value.JNumber? ==> r == Some(value.n)
    ensures value.JInt? ==> r == Some(value.i as real)
    ensures value.JArray? || value.JObject? ==> r == None
  {
    if value == JString("N/A") || value == JNull || value == JString("") then None
    else FloatOf(value, readFloat)
  }

  // --------------------------------------------------------------- earnings

  /** An earnings record as the API returns it. */
  type Record = map<string, Json>

  /** `record.get(key, None)`. */
  function Get(record: Record, key: string): Json
  {
    if key in record then record[key] else JNull
  }

  /** One entry of `quarterly_earnings`. */
  datatype Quarter = Quarter(
    quarter: nat,
    fiscalDateEnding: Json,
    reportedDate: Json,
    reportedEps: Option<real>,
    estimatedEps: Option<real>,
    surprise: Option<real>,
    surprisePercentage: Option<real>,
    reportTime: Json)

  function QuarterOf(record: Record, number: nat, readFloat: string -> Option<real>): Quarter
  {
    Quarter(number, Get(record, "fiscalDateEnding"), Get(record, "reportedDate"),
            ParseNumber(Get(record, "reportedEPS"), readFloat), ParseNumber(Get(record, "estimatedEPS"), readFloat),
            ParseNumber(Get(record, "surprise"), readFloat), ParseNumber(Get(record, "surprisePercentage"), readFloat),
            Get(record, "reportTime"))
  }

  /** The quarters of `_format_earnings_json`, numbered 1 to n in the order of the records. */
  function Quarters(records: seq<Record>, readFloat: string -> Option<real>): (r: seq<Quarter>)
    ensures |r| == |records|
    ensures forall i :: 0 <= i < |r| ==> r[i].quarter == i + 1 && r[i] == QuarterOf(records[i], i + 1, readFloat)
  {
    if records == [] then []
    else Quarters(records[..|records| - 1], readFloat) + [QuarterOf(records[|records| - 1], |records|, readFloat)]
  }

  /**
   * The percentage growth from `earlier` to `latest` EPS, before rounding
   * to two decimals; only when both are known and positive.
   */
  function EpsGrowth(latest: Option<real>, earlier: Option<real>): (r: Option<real>)
    ensures r.Some? <==> latest.Some? && earlier.Some? && latest.value > 0.0 && earlier.value > 0.0
    ensures r.Some? ==> (r.value > 0.0 <==> latest.value > earlier.value)
    ensures r.Some? ==> (r.value == 0.0 <==> latest.value == earlier.value)
  {
    if latest.Some? && earlier.Some? && latest.value != 0.0 && earlier.value != 0.0 && latest.value > 0.0 && earlier.value > 0.0 then
      Some((latest.value - earlier.value) / earlier.value * 100.0)
    else None
  }

  datatype EarningsReport = EarningsReport(
    symbol: string,
    marketName: string,
    currency: string,
    generatedOn: string,
    dataSource: string,
    quartersIncluded: nat,
    quarterlyEarnings: seq<Quarter>,
    quarterOverQuarterGrowth: Option<real>,
    yearOverYearGrowth: Option<real>)

  /**
   * `_format_earnings_json`: quarter-over-quarter growth compares the first
   * two quarters, year-over-year growth the first and the fourth of exactly
   * four.
   */
  function EarningsReportOf(symbol: string, info: MarketInfo, records: seq<Record>, now: string,
                            readFloat: string -> Option<real>): (r: EarningsReport)
    ensures r.symbol == symbol && r.marketName == info.marketName && r.currency == info.currency
    ensures r.generatedOn == now && r.dataSource == "financial_apis"
    ensures r.quarterlyEarnings == Quarters(records, readFloat)
    ensures r.quartersIncluded == |records| == |r.quarterlyEarnings|
    ensures r.quarterOverQuarterGrowth.Some? ==> |records| >= 2
    ensures |records| >= 2 ==>
      r.quarterOverQuarterGrowth == EpsGrowth(r.quarterlyEarnings[0].reportedEps, r.quarterlyEarnings[1].reportedEps)
    ensures r.yearOverYearGrowth.Some? ==> |records| == 4
    ensures |records| == 4 ==>
      r.yearOverYearGrowth == EpsGrowth(r.quarterlyEarnings[0].reportedEps, r.quarterlyEarnings[3].reportedEps)
  {
    var quarters := Quarters(records, readFloat);
    var qoq := if |quarters| >= 2 then EpsGrowth(quarters[0].reportedEps, quarters[1].reportedEps) else None;
    var yoy := if |quarters| == 4 then EpsGrowth(quarters[0].reportedEps, quarters[3].reportedEps) else None;
    EarningsReport(symbol, info.marketName, info.currency, now, "financial_apis", |quarters|, quarters, qoq, yoy)
  }

  /** `_format_earnings_json`, building the quarters one record at a time. */
  method FormatEarningsJson(symbol: string, info: MarketInfo, records: seq<Record>, now: string,
                            readFloat: string -> Option<real>) returns (r: EarningsReport)
    ensures r == EarningsReportOf(symbol, info, records, now, readFloat)
  {
    var quarters := FormatQuarters(records, readFloat);
    var qoq: Option<real> := None;
    if |quarters| >= 2 {
      qoq := EpsGrowth(quarters[0].reportedEps, quarters[1].reportedEps);
    }
    var yoy: Option<real> := None;
    if |quarters| == 4 {
      yoy := EpsGrowth(quarters[0].reportedEps, quarters[3].reportedEps);
    }
    r := EarningsReport(symbol, info.marketName, info.currency, now, "financial_apis", |quarters|, quarters, qoq, yoy);
  }

  /** The loop of `_format_earnings_json` over the records. */
  method FormatQuarters(records: seq<Record>, readFloat: string -> Option<real>) returns (quarters: seq<Quarter>)
    ensures quarters == Quarters(records, readFloat)
  {
    quarters := [];
    var i := 0;
    while i < |records|
      invariant i <= |records|
      invariant quarters == Quarters(records[..i], readFloat)
    {
      assert records[..i + 1][..i] == records[..i];
      quarters := quarters + [QuarterOf(records[i], i + 1, readFloat)];
      i := i + 1;
    }
    assert records[..|records|] == records;
  }

  // ------------------------------------------------------ search-report parsing

  /** The article being collected: the keys set so far. */
  datatype Draft = Draft(title: Option<string>, url: Option<string>, description: Option<string>)

  const NoDraft := Draft(None, None, None)

  /** `current_article.get('title') and current_article.get('url')`. */
  predicate Complete(d: Draft)
  {
    d.title.Some? && d.title.value != "" && d.url.Some? && d.url.value != ""
  }

  /** What the parser only ever stores: a non-empty title and a URL starting with `http`. */
  predicate WellFormed(d: Draft)
  {
    (d.title.Some? ==> d.title.value != "") && (d.url.Some? ==> StartsWith(d.url.value, "http"))
  }

  /** A line starting with one of `1.` to `10.`. */
  predicate Numbered(line: string)
  {
    (|line| >= 2 && '1' <= line[0] <= '9' && line[1] == '.') || StartsWith(line, "10.")
  }

  /** `line.split('.', 1)[1].strip().replace('**', '').strip()`. */
  function TitleOf(line: string): string
    requires Numbered(line)
  {
    assert '.' in line by {
      if line[1] != '.' {
        assert line[..3][2] == '.';
      }
    }
    Strip(Replace(Strip(line[CharIndex(line, '.') + 1..]), "**", ""))
  }

  /** The articles kept so far and the article being collected. */
  datatype ScanState = ScanState(articles: seq<Draft>, current: Draft)

  /** The current article is kept when complete and a fresh one begun; otherwise nothing changes. */
  function Flush(st: ScanState): (r: ScanState)
    ensures Complete(st.current) ==> r == ScanState(st.articles + [st.current], NoDraft)
    ensures !Complete(st.current) ==> r == st
  {
    if Complete(st.current) then ScanState(st.articles + [st.current], NoDraft) else st
  }

  /** One line of the loop in `_parse_google_search_results`. */
  function ScanResultLine(st: ScanState, raw: string): (r: ScanState)
    ensures r.articles == st.articles || r.articles == st.articles + [st.current]
  {
    var line := Strip(raw);
    if line == "" then Flush(st)
    else if Numbered(line) then
      var flushed := Flush(st);
      var title := TitleOf(line);
      if title != "" then flushed.(current := flushed.current.(title := Some(title))) else flushed
    else if StartsWith(line, "http") then st.(current := st.current.(url := Some(line)))
    else if !StartsWith(line, "Search Results") then
      var description := if st.current.description.None? then line else st.current.description.value + " " + line;
      st.(current := st.current.(description := Some(description)))
    else st
  }

  /** Only complete, well-formed articles are ever kept. */
  predicate Kept(st: ScanState)
  {
    (forall k :: 0 <= k < |st.articles| ==> Complete(st.articles[k]) && WellFormed(st.articles[k])) && WellFormed(st.current)
  }

  /** Keeping the current article keeps every article complete and well-formed. */
  lemma FlushKept(st: ScanState)
    requires Kept(st)
    ensures Kept(Flush(st))
  {
    if Complete(st.current) {
      var a := st.articles + [st.current];
      forall k | 0 <= k < |a| ensures Complete(a[k]) && WellFormed(a[k]) {
        if k < |st.articles| {
          assert a[k] == st.articles[k];
        }
      }
    }
  }

  /** Each line keeps every article complete and well-formed. */
  lemma ScanResultLineKept(st: ScanState, raw: string)
    requires Kept(st)
    ensures Kept(ScanResultLine(st, raw))
  {
    FlushKept(st);
    var line := Strip(raw);
    if line != "" && Numbered(line) {
      var flushed := Flush(st);
      var title := TitleOf(line);
      if title != "" {
        assert WellFormed(flushed.current.(title := Some(title)));
      }
    } else if line != "" && StartsWith(line, "http") {
      assert WellFormed(st.current.(url := Some(line)));
    }
  }

  /** The loop over all lines, from no articles and an empty current article. */
  function ScanResultLines(lines: seq<string>): (r: ScanState)
    ensures Kept(r)
    ensures |r.articles| <= |lines|
  {
    if lines == [] then ScanState([], NoDraft)
    else
      var before := ScanResultLines(lines[..|lines| - 1]);
      ScanResultLineKept(before, lines[|lines| - 1]);
      ScanResultLine(before, lines[|lines| - 1])
  }

  /** An article once its missing fields are filled and its description cut down. */
  datatype NewsArticle = NewsArticle(title: string, url: string, description: string,
                                     publishedAt: string, source: string, author: string)

  const DescriptionLimit := 200

  /** Descriptions over the limit keep their first 200 characters and gain `...`. */
  function Truncated(description: string): (r: string)
    ensures |description| <= DescriptionLimit ==> r == description
    ensures |description| > DescriptionLimit ==> |r| == DescriptionLimit + 3 && r[..DescriptionLimit] == description[..DescriptionLimit] && r[DescriptionLimit..] == "..."
  {
    if |description| > DescriptionLimit then description[..DescriptionLimit] + "..." else description
  }

  /** The fill-in loop for one article. */
  function Finished(d: Draft, company: string, now: string): NewsArticle
    requires Complete(d)
  {
    NewsArticle(d.title.value, d.url.value,
                Truncated(d.description.GetOr("News article about " + company)),
                now, "Google Search", "Unknown")
  }

  function FinishAll(ds: seq<Draft>, company: string, now: string): (r: seq<NewsArticle>)
    requires forall k :: 0 <= k < |ds| ==> Complete(ds[k])
    ensures |r| == |ds|
    ensures forall k :: 0 <= k < |ds| ==> r[k] == Finished(ds[k], company, now)
  {
    if ds == [] then []
    else
      var init := FinishAll(ds[..|ds| - 1], company, now);
      FinishedSnoc(ds, init, company, now);
      init + [Finished(ds[|ds| - 1], company, now)]
  }

  /** Finishing the last draft extends the finished earlier drafts. */
  lemma FinishedSnoc(ds: seq<Draft>, init: seq<NewsArticle>, company: string, now: string)
    requires ds != [] && forall k :: 0 <= k < |ds| ==> Complete(ds[k])
    requires |init| == |ds| - 1 && forall k :: 0 <= k < |init| ==> init[k] == Finished(ds[k], company, now)
    ensures forall k :: 0 <= k < |ds| ==> (init + [Finished(ds[|ds| - 1], company, now)])[k] == Finished(ds[k], company, now)
  {
  }

  /** The articles `_parse_google_search_results` returns for a report. */
  function SearchArticles(report: string, company: string, now: string): seq<NewsArticle>
  {
    var st := ScanResultLines(SplitOn(report, '\n'));
    FlushKept(st);
    FinishAll(Flush(ScanResultLines(SplitOn(report, '\n'))).articles, company, now)
  }

  /**
   * What every returned article satisfies: a title and a URL starting with
   * `http`, a description of at most 203 characters, and the defaults for
   * the fields a search report does not carry.
   */
  lemma SearchArticlesShape(report: string, company: string, now: string, k: nat)
    requires k < |SearchArticles(report, company, now)|
    ensures var a := SearchArticles(report, company, now)[k];
      && a.title != "" && StartsWith(a.url, "http")
      && |a.description| <= DescriptionLimit + 3
      && a.publishedAt == now && a.source == "Google Search" && a.author == "Unknown"
  {
    var st := ScanResultLines(SplitOn(report, '\n'));
    FlushKept(st);
    var ds := Flush(st).articles;
    assert Complete(ds[k]) && WellFormed(ds[k]);
  }

  /** A report none of whose lines starts with `http` yields no article. */
  lemma NoUrlNoArticle(report: string, company: string, now: string)
    requires forall k :: 0 <= k < |SplitOn(report, '\n')| ==> !StartsWith(Strip(SplitOn(report, '\n')[k]), "http")
    ensures SearchArticles(report, company, now) == []
  {
    NoUrlScan(SplitOn(report, '\n'));
  }

  lemma {:induction false} NoUrlScan(lines: seq<string>)
    requires forall k :: 0 <= k < |lines| ==> !StartsWith(Strip(lines[k]), "http")
    ensures ScanResultLines(lines).articles == [] && ScanResultLines(lines).current.url == None
  {
    if lines != [] {
      var init := lines[..|lines| - 1];
      assert forall k :: 0 <= k < |init| ==> init[k] == lines[k];
      NoUrlScan(init);
      NoUrlLine(ScanResultLines(init), lines[|lines| - 1]);
    }
  }

  /** A line not starting with `http` sets no URL, so it keeps no article when there is no URL yet. */
  lemma NoUrlLine(st: ScanState, raw: string)
    requires st.current.url == None && !StartsWith(Strip(raw), "http")
    ensures ScanResultLine(st, raw).articles == st.articles && ScanResultLine(st, raw).current.url == None
  {
    assert !Complete(st.current);
  }

  /** One pass of the line loop in `_parse_google_search_results`. */
  method ScanLineInto(articles: seq<Draft>, current: Draft, raw: string) returns (articles': seq<Draft>, current': Draft)
    ensures ScanState(articles', current') == ScanResultLine(ScanState(articles, current), raw)
  {
    articles', current' := articles, current;
    var line := Strip(raw);
    if line == "" {
      if Complete(current') {
        articles' := articles' + [current'];
        current' := NoDraft;
      }
    } else if Numbered(line) {
      if Complete(current') {
        articles' := articles' + [current'];
        current' := NoDraft;
      }
      var title := TitleOf(line);
      if title != "" {
        current' := current'.(title := Some(title));
      }
    } else if StartsWith(line, "http") {
      current' := current'.(url := Some(line));
    } else if !StartsWith(line, "Search Results") {
      if current'.description.None? {
        current' := current'.(description := Some(line));
      } else {
        current' := current'.(description := Some(current'.description.value + " " + line));
      }
    }
  }

  /** One pass of the fill-in loop: the `setdefault` calls and the truncation. */
  method FillDefaults(article: Draft, company: string, now: string) returns (r: NewsArticle)
    requires Complete(article)
    ensures r == Finished(article, company, now)
  {
    var description := article.description.GetOr("News article about " + company);
    if |description| > 200 {
      description := description[..200] + "...";
    }
    r := NewsArticle(article.title.value, article.url.value, description, now, "Google Search", "Unknown");
  }

  /** `_parse_google_search_results`: the line loop, then the fill-in loop. */
  method ParseGoogleSearchResults(report: string, company: string, now: string) returns (result: seq<NewsArticle>)
    ensures result == SearchArticles(report, company, now)
  {
    var lines := SplitOn(report, '\n');
    var articles, current := ScanReportLines(lines);
    FlushKept(ScanState(articles, current));
    if Complete(current) {
      articles := articles + [current];
    }
    result := FinishArticles(articles, company, now);
  }

  /** The line loop of `_parse_google_search_results`. */
  method ScanReportLines(lines: seq<string>) returns (articles: seq<Draft>, current: Draft)
    ensures ScanState(articles, current) == ScanResultLines(lines)
  {
    articles, current := [], NoDraft;
    var i := 0;
    while i < |lines|
      invariant i <= |lines|
      invariant ScanState(articles, current) == ScanResultLines(lines[..i])
    {
      assert lines[..i + 1][..i] == lines[..i];
      articles, current := ScanLineInto(articles, current, lines[i]);
      i := i + 1;
    }
    assert lines[..|lines|] == lines;
  }

  /** The fill-in loop of `_parse_google_search_results`. */
  method FinishArticles(articles: seq<Draft>, company: string, now: string) returns (result: seq<NewsArticle>)
    requires forall k :: 0 <= k < |articles| ==> Complete(articles[k])
    ensures result == FinishAll(articles, company, now)
  {
    result := [];
    var j := 0;
    while j < |articles|
      invariant j <= |articles|
      invariant result == FinishAll(articles[..j], company, now)
    {
      assert articles[..j + 1][..j] == articles[..j];
      var article := FillDefaults(articles[j], company, now);
      result := result + [article];
      j := j + 1;
    }
    assert articles[..|articles|] == articles;
  }

  // ------------------------------------------------------------------- news

  /** One entry of `news_articles`. */
  datatype RankedArticle = RankedArticle(rank: nat, title: string, description: string, url: string,
                                         publishedAt: string, source: string, author: string)

  datatype NewsReport = NewsReport(
    identifier: string,
    market: string,
    generatedOn: string,
    dataSource: string,
    articlesCount: nat,
    searchQuery: string,
    newsArticles: seq<RankedArticle>)

  function RankedOf(a: NewsArticle, rank: nat): RankedArticle
  {
    RankedArticle(rank, a.title, a.description, a.url, a.publishedAt, a.source, a.author)
  }

  /** The articles ranked 1 to n in their order, each keeping its fields. */
  function Ranked(articles: seq<NewsArticle>): (r: seq<RankedArticle>)
    ensures |r| == |articles|
    ensures forall i :: 0 <= i < |r| ==> r[i] == RankedOf(articles[i], i + 1)
  {
    if articles == [] then []
    else Ranked(articles[..|articles| - 1]) + [RankedOf(articles[|articles| - 1], |articles|)]
  }

  /** `_format_news_json`: the articles ranked in order under the company, market and search query. */
  function NewsReportOf(company: string, market: string, articles: seq<NewsArticle>, now: string): (r: NewsReport)
    ensures r.identifier == company && r.market == market && r.searchQuery == company
    ensures r.generatedOn == now && r.dataSource == "news_apis"
    ensures r.newsArticles == Ranked(articles)
    ensures r.articlesCount == |articles| == |r.newsArticles|
    ensures forall i :: 0 <= i < |articles| ==>
      var e := r.newsArticles[i];
      var a := articles[i];
      e.rank == i + 1 && e.title == a.title && e.description == a.description && e.url == a.url &&
      e.publishedAt == a.publishedAt && e.source == a.source && e.author == a.author
  {
    NewsReport(company, market, now, "news_apis", |articles|, company, Ranked(articles))
  }

  /** `_format_news_json`, appending one ranked article at a time. */
  method FormatNewsJson(company: string, market: string, articles: seq<NewsArticle>, now: string) returns (r: NewsReport)
    ensures r == NewsReportOf(company, market, articles, now)
  {
    var ranked: seq<RankedArticle> := [];
    var i := 0;
    while i < |articles|
      invariant i <= |articles|
      invariant ranked == Ranked(articles[..i])
    {
      assert articles[..i + 1][..i] == articles[..i];
      var a := articles[i];
      ranked := ranked + [RankedArticle(i + 1, a.title, a.description, a.url, a.publishedAt, a.source, a.author)];
      i := i + 1;
    }
    assert articles[..|articles|] == articles;
    r := NewsReport(company, market, now, "news_apis", |articles|, company, ranked);
  }

  /** `max(1, min(10, num_articles))`. */
  function ClampArticles(n: int): (r: int)
    ensures 1 <= r <= 10
    ensures 1 <= n <= 10 ==> r == n
    ensures n < 1 ==> r == 1
    ensures n > 10 ==> r == 10
  {
    if n > 10 then 10 else if n < 1 then 1 else n
  }

  function Take<T>(xs: seq<T>, n: int): (r: seq<T>)
    ensures |r| <= |xs| && (n >= 0 ==> |r| <= n) && r == xs[..|r|]
    ensures 0 <= n <= |xs| ==> |r| == n
  {
    if n <= 0 then [] else if n >= |xs| then xs else xs[..n]
  }

  /** The Google search: its outcome for a query and a number of results. */
  type Search = (string, int) -> Result<string>

  /**
   * `get_company_news`: the identifier is stripped, the article count
   * clamped, "<identifier> news" searched, and the parsed articles, cut to
   * the count, formatted; an error when the search fails or finds no
   * article.
   */
  function GetCompanyNews(identifier: string, numArticles: int, market: string, search: Search, now: string): (r: Result<NewsReport>)
    ensures r.Ok? <==>
      search(Strip(identifier) + " news", ClampArticles(numArticles)).Ok? &&
      SearchArticles(search(Strip(identifier) + " news", ClampArticles(numArticles)).value, Strip(identifier), now) != []
    ensures r.Ok? ==> 1 <= r.value.articlesCount <= ClampArticles(numArticles)
    ensures r.Ok? && numArticles >= 1 ==> r.value.articlesCount <= numArticles
    ensures r.Ok? ==> r.value.identifier == Strip(identifier) && r.value.market == market
    ensures r.Ok? ==> r.value == NewsReportOf(Strip(identifier), market,
      Take(SearchArticles(search(Strip(identifier) + " news", ClampArticles(numArticles)).value, Strip(identifier), now),
           ClampArticles(numArticles)), now)
    ensures r.Err? ==> r.error == NewsUnavailable(Strip(identifier))
  {
    var n := ClampArticles(numArticles);
    var company := Strip(identifier);
    var outcome := search(company + " news", n);
    var articles := if outcome.Ok? then Take(SearchArticles(outcome.value, company, now), n) else [];
    if outcome.Ok? && articles != [] then
      Ok(NewsReportOf(company, market, Take(articles, n), now))
    else
      Err(NewsUnavailable(company))
  }

  /** The error message when no news can be found. */
  function NewsUnavailable(company: string): string
  {
    "Unable to retrieve news for " + company + ". This could be due to:\n" +
    "\U{2022} News API rate limits or service unavailability\n" +
    "\U{2022} Network connectivity issues\n" +
    "\U{2022} Company identifier not recognized by news sources\n" +
    "Please verify the company name/symbol and try again later."
  }
}

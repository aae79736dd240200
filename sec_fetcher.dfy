/** The filing locator and retriever of tools/sec_fetcher.py (class `SECFetcher`):
    ticker-to-CIK resolution, Atom feed parsing, the index URL and cache path
    derivations, primary-document selection on the index page, and the download
    records. Every HTTP response is an input (`Web`); the cache directory is the
    fetcher's `files` map. */
module SecFetcher {
  import opened Wrappers
  import opened Strings
  import opened AtomFeed

  const BaseUrl: string := "https://www.sec.gov"

  /** The CIK used when the ticker cannot be resolved. */
  const SentinelCik: string := "0000000000"

  newtype byte = x: int | 0 <= x < 256

  /** One value of the `company_tickers.json` object; a field is `None` when the
      key is missing, which raises `KeyError` when read. */
  datatype TickerEntry = TickerEntry(ticker: Option<string>, cikStr: Option<nat>, title: Option<string>)

  /** One cell of a `<tr>` of the "Document Format Files" table: its stripped text
      and the `href` of the first `<a href>` inside it. */
  datatype Cell = Cell(text: string, href: Option<string>)
  type Row = seq<Cell>

  /** The responses the fetcher would receive. A missing key is a request that raises
      (connection error or HTTP error status).
      - `tickerTable`: the ticker JSON, `None` when the request or the decoding fails;
      - `feeds`: the browse-edgar Atom feed for a (CIK, filing type) query;
      - `indexPages`: an index page by URL, `None` when it has no document table;
      - `documents`: a document's bytes by URL. */
  datatype Web = Web(
    tickerTable: Option<seq<TickerEntry>>,
    feeds: map<(string, string), seq<FeedEntry>>,
    indexPages: map<string, Option<seq<Row>>>,
    documents: map<string, seq<byte>>)

  /** A cache file: written in text mode (the placeholders) or binary mode (a document). */
  datatype Content = Text(text: string) | Bytes(data: seq<byte>)

  /** The `{'date', 'url', 'path', 'size', 'accession'}` record of a download. */
  datatype Downloaded = Downloaded(date: string, url: string, path: string, size: nat, accession: string)

  /** A download's record together with what it writes to its cache path. */
  datatype Download = Download(record: Downloaded, content: Content)

  // ---------------------------------------------------------------------------
  // _get_cik

  datatype Identity = Identity(cik: string, name: string)

  function Fallback(ticker: string): Identity {
    Identity(SentinelCik, ticker + " Corp.")
  }

  /** `str(cik_str).zfill(10)`. */
  function PaddedCik(n: nat): string {
    ZeroFill(NatToDecimal(n), 10)
  }

  /** The entry is the one the scan stops at: it has a ticker equal, upper-cased,
      to the fetcher's. */
  predicate Matches(e: TickerEntry, ticker: string) {
    e.ticker.Some? && Upper(e.ticker.value) == ticker
  }

  /** The entry is scanned past: it has a ticker and it differs. */
  predicate PassedOver(e: TickerEntry, ticker: string) {
    e.ticker.Some? && Upper(e.ticker.value) != ticker
  }

  /** The CIK and company name the scan of the ticker table arrives at. An entry
      without a ticker, or a matching entry without a CIK or title, raises and
      so ends in the fallback. */
  function ResolveIn(entries: seq<TickerEntry>, ticker: string): Identity {
    if entries == [] then Fallback(ticker)
    else
      var e := entries[0];
      if e.ticker.None? then Fallback(ticker)
      else if Upper(e.ticker.value) == ticker then
        if e.cikStr.Some? && e.title.Some? then Identity(PaddedCik(e.cikStr.value), e.title.value)
        else Fallback(ticker)
      else ResolveIn(entries[1..], ticker)
  }

  function Resolve(table: Option<seq<TickerEntry>>, ticker: string): Identity {
    if table.None? then Fallback(ticker) else ResolveIn(table.value, ticker)
  }

  /** The first matching entry decides the outcome. */
  lemma {:induction false} ResolveFirstMatch(entries: seq<TickerEntry>, ticker: string, k: nat)
    requires k < |entries| && Matches(entries[k], ticker)
    requires forall j :: 0 <= j < k ==> PassedOver(entries[j], ticker)
    ensures ResolveIn(entries, ticker) ==
            if entries[k].cikStr.Some? && entries[k].title.Some?
            then Identity(PaddedCik(entries[k].cikStr.value), entries[k].title.value)
            else Fallback(ticker)
  {
    if k > 0 {
      assert forall j :: 0 <= j < k - 1 ==> entries[1..][j] == entries[j + 1];
      ResolveFirstMatch(entries[1..], ticker, k - 1);
    }
  }

  /** No entry matches: the sentinel CIK and the name "{ticker} Corp.". */
  lemma {:induction false} ResolveNoMatch(entries: seq<TickerEntry>, ticker: string)
    requires forall j :: 0 <= j < |entries| ==> PassedOver(entries[j], ticker)
    ensures ResolveIn(entries, ticker) == Identity(SentinelCik, ticker + " Corp.")
  {
    if entries != [] {
      assert forall j :: 0 <= j < |entries| - 1 ==> entries[1..][j] == entries[j + 1];
      ResolveNoMatch(entries[1..], ticker);
    }
  }

  /** `zfill(10)` pads a short numeral to exactly 10 digits, leaves a wider one
      as it is, and keeps its value. */
  lemma PaddedCikSpec(n: nat)
    ensures AllDigits(PaddedCik(n)) && DecimalValue(PaddedCik(n)) == n
    ensures |NatToDecimal(n)| >= 10 ==> PaddedCik(n) == NatToDecimal(n)
    ensures |NatToDecimal(n)| < 10 ==> |PaddedCik(n)| == 10
  {
    var s := NatToDecimal(n);
    DecimalRoundTrip(n);
    if |s| < 10 {
      var r := PaddedCik(n);
      var k := 10 - |s|;
      assert r == r[..k] + r[k..];
      assert r == Zeros(k) + s;
      LeadingZerosValue(k, s);
    }
  }

  /** Whatever the table holds, the resolved CIK is a numeral of at least 10 digits. */
  lemma ResolveCikShape(table: Option<seq<TickerEntry>>, ticker: string)
    ensures AllDigits(Resolve(table, ticker).cik) && |Resolve(table, ticker).cik| >= 10
  {
    if table.Some? {
      ResolveInCikShape(table.value, ticker);
    }
  }

  lemma {:induction false} ResolveInCikShape(entries: seq<TickerEntry>, ticker: string)
    ensures AllDigits(ResolveIn(entries, ticker).cik) && |ResolveIn(entries, ticker).cik| >= 10
  {
    if entries != [] {
      var e := entries[0];
      if Matches(e, ticker) && e.cikStr.Some? && e.title.Some? {
        PaddedCikSpec(e.cikStr.value);
      } else if PassedOver(e, ticker) {
        ResolveInCikShape(entries[1..], ticker);
      }
    }
  }

  // ---------------------------------------------------------------------------
  // URL and path derivations of _download_filing

  /** `str(int(cik))` for a real CIK, `"0"` for the sentinel. */
  function CikNoPad(cik: string): string
    requires AllDigits(cik)
  {
    if cik != SentinelCik then NatToDecimal(DecimalValue(cik)) else "0"
  }

  /** Stripping the padding again gives back `str(cik_str)`. */
  lemma CikNoPadRoundTrip(n: nat)
    ensures AllDigits(PaddedCik(n)) && CikNoPad(PaddedCik(n)) == NatToDecimal(n)
  {
    var p := PaddedCik(n);
    PaddedCikSpec(n);
    if p == SentinelCik {
      assert DecimalValue(SentinelCik) == 0 by { assert SentinelCik == Zeros(10); ZerosValue(10); }
      assert n == 0;
      assert CikNoPad(p) == "0";
    } else {
      assert CikNoPad(p) == NatToDecimal(DecimalValue(p));
    }
  }

  /** The filing's index page: its feed link, or the archive URL built from the
      CIK and accession number when the link is missing or empty. */
  function IndexUrl(cik: string, f: FilingRef): string
    requires AllDigits(cik)
  {
    if f.url.Some? && f.url.value != "" then f.url.value
    else BaseUrl + "/Archives/edgar/data/" + CikNoPad(cik) + "/" + ReplaceAll(f.accession, "-", "")
         + "/" + f.accession + "-index.html"
  }

  /** Without a feed link the index URL names the unpadded CIK and the accession
      number with every `-` removed. */
  lemma ArchiveIndexUrl(n: nat, f: FilingRef)
    requires f.url.None? || f.url.value == ""
    ensures AllDigits(PaddedCik(n))
    ensures IndexUrl(PaddedCik(n), f) ==
            BaseUrl + "/Archives/edgar/data/" + NatToDecimal(n) + "/" + RemoveChar(f.accession, '-')
            + "/" + f.accession + "-index.html"
    ensures '-' !in RemoveChar(f.accession, '-')
  {
    CikNoPadRoundTrip(n);
    ReplaceCharByNothing(f.accession, '-');
  }

  /** `filing_type.replace(' ', '_').replace('/', '-')`. */
  function SafeType(filingType: string): string {
    ReplaceAll(ReplaceAll(filingType, " ", "_"), "/", "-")
  }

  lemma SafeTypeClean(filingType: string)
    ensures ' ' !in SafeType(filingType) && '/' !in SafeType(filingType)
  {
    var t := ReplaceAll(filingType, " ", "_");
    ReplaceCharRemoved(filingType, ' ', "_");
    ReplaceCharRemoved(t, '/', "-");
  }

  /** `os.path.join(f"data/cache/{ticker}", f"{ticker}_{safe_type}_{date}.html")`. */
  function CachePath(ticker: string, filingType: string, date: string): string {
    PathJoin("data/cache/" + ticker, ticker + "_" + SafeType(filingType) + "_" + date + ".html")
  }

  /** For a ticker that neither starts nor ends with `/`, the cache path is the
      `data/cache/{ticker}/{ticker}_{type}_{date}.html` layout, and its type part
      has neither spaces nor slashes. */
  lemma CachePathLayout(ticker: string, filingType: string, date: string)
    requires ticker != [] && ticker[0] != '/' && ticker[|ticker| - 1] != '/'
    ensures CachePath(ticker, filingType, date) ==
            "data/cache/" + ticker + "/" + ticker + "_" + SafeType(filingType) + "_" + date + ".html"
    ensures ' ' !in SafeType(filingType) && '/' !in SafeType(filingType)
  {
    var a := "data/cache/" + ticker;
    var b := ticker + "_" + SafeType(filingType) + "_" + date + ".html";
    assert b[0] == ticker[0];
    assert !StartsWith(b, "/");
    assert a[|a| - 1] == ticker[|ticker| - 1];
    assert !EndsWith(a, "/");
    SafeTypeClean(filingType);
  }

  // ---------------------------------------------------------------------------
  // Primary-document selection on the index page

  /** A row that ends the scan: more than 3 cells, the 4th cell's text equal to
      the filing type ignoring case, and a link in the 3rd cell. */
  predicate RowMatches(row: Row, filingType: string) {
    |row| > 3 && Upper(row[3].text) == Upper(filingType) && row[2].href.Some?
  }

  /** The position of the first matching row. */
  function MatchIndex(rows: seq<Row>, filingType: string): (r: Option<nat>)
    ensures r.None? <==> forall k :: 0 <= k < |rows| ==> !RowMatches(rows[k], filingType)
    ensures r.Some? ==> r.value < |rows| && RowMatches(rows[r.value], filingType)
    ensures r.Some? ==> forall k :: 0 <= k < r.value ==> !RowMatches(rows[k], filingType)
  {
    if rows == [] then None
    else if RowMatches(rows[0], filingType) then Some(0)
    else
      var rest := MatchIndex(rows[1..], filingType);
      assert forall k :: 0 < k < |rows| ==> rows[k] == rows[1..][k - 1];
      if rest.None? then None else Some(rest.value + 1)
  }

  /** An inline-viewer link `/ix?doc=…` stands for the text after its last `?doc=`;
      any other link is the document path itself. */
  function UnwrapViewer(href: string): string {
    if StartsWith(href, "/ix?doc=") then Last(Split(href, "?doc=")) else href
  }

  lemma UnwrapViewerSpec(href: string)
    ensures StartsWith(href, "/ix?doc=") ==>
              EndsWith(href, "?doc=" + UnwrapViewer(href)) && !Contains(UnwrapViewer(href), "?doc=")
    ensures !StartsWith(href, "/ix?doc=") ==> UnwrapViewer(href) == href
  {
    if StartsWith(href, "/ix?doc=") {
      assert OccursAt(href, "?doc=", 3) by { assert href[3..][..5] == href[..8][3..]; }
      OccursContains(href, "?doc=", 3);
      SplitLast(href, "?doc=");
      SplitPiecesFree(href, "?doc=");
    }
  }

  /** The document link `_download_filing` settles on, if any. */
  function FirstDocLink(rows: seq<Row>, filingType: string): Option<string> {
    var k := MatchIndex(rows, filingType);
    if k.None? then None else Some(UnwrapViewer(rows[k.value][2].href.value))
  }

  /** The scan of the table rows, with its early `break`. */
  method FindDocLink(rows: seq<Row>, filingType: string) returns (docLink: Option<string>)
    ensures docLink == FirstDocLink(rows, filingType)
  {
    docLink := None;
    var i := 0;
    while i < |rows|
      invariant 0 <= i <= |rows|
      invariant forall k :: 0 <= k < i ==> !RowMatches(rows[k], filingType)
    {
      var cells := rows[i];
      if |cells| > 3 && Upper(cells[3].text) == Upper(filingType) {
        if cells[2].href.Some? {
          docLink := Some(UnwrapViewer(cells[2].href.value));
          return;
        }
      }
      i := i + 1;
    }
  }

  // ---------------------------------------------------------------------------
  // _download_filing

  /** The page written when the index has no usable document link. */
  function NoLinkPage(filingType: string, ticker: string): string {
    "<html><body><h1>Demo Filing: " + filingType + "</h1><p>This is a demo filing for "
    + ticker + "</p></body></html>"
  }

  /** The page written when a request fails. */
  function ErrorPage(filingType: string, ticker: string, date: string): string {
    "<html><body><h1>Demo Filing: " + filingType + "</h1><p>Demo content for "
    + ticker + " - " + date + "</p></body></html>"
  }

  /** The usable document link of a fetched index page: the first matching row's
      link, unless it is empty. */
  function DocLink(web: Web, indexUrl: string, filingType: string): Option<string>
    requires indexUrl in web.indexPages
  {
    var link := FirstDocLink(web.indexPages[indexUrl].GetOr([]), filingType);
    if link.Some? && link.value != "" then link else None
  }

  /** What `_download_filing(filing, filing_type)` returns and writes. */
  function DownloadOf(ticker: string, cik: string, f: FilingRef, filingType: string, web: Web): Download
    requires AllDigits(cik)
  {
    var indexUrl := IndexUrl(cik, f);
    var path := CachePath(ticker, filingType, f.date);
    var placeholder := Downloaded(f.date, indexUrl, path, 1000, f.accession);
    if indexUrl !in web.indexPages then Download(placeholder, Text(ErrorPage(filingType, ticker, f.date)))
    else
      var link := DocLink(web, indexUrl, filingType);
      if link.None? then Download(placeholder, Text(NoLinkPage(filingType, ticker)))
      else
        var docUrl := BaseUrl + link.value;
        if docUrl !in web.documents then Download(placeholder, Text(ErrorPage(filingType, ticker, f.date)))
        else Download(Downloaded(f.date, docUrl, path, |web.documents[docUrl]|, f.accession),
                      Bytes(web.documents[docUrl]))
  }

  /** Every download keeps the filing's date and accession number and writes to
      the cache path of (ticker, type, date). It succeeds exactly when the index
      page is fetched, names a document of the type and that document is fetched;
      then the record holds the document URL and its length. Otherwise (no link,
      or any failed request) the record is the same placeholder pointing at the
      index page, with size 1000. */
  lemma DownloadRecord(ticker: string, cik: string, f: FilingRef, filingType: string, web: Web)
    requires AllDigits(cik)
    ensures var d := DownloadOf(ticker, cik, f, filingType, web);
            && d.record.date == f.date && d.record.accession == f.accession
            && d.record.path == CachePath(ticker, filingType, f.date)
            && (d.content.Bytes? <==>
                  IndexUrl(cik, f) in web.indexPages && DocLink(web, IndexUrl(cik, f), filingType).Some?
                  && BaseUrl + DocLink(web, IndexUrl(cik, f), filingType).value in web.documents)
            && (d.content.Bytes? ==>
                  d.record.url == BaseUrl + DocLink(web, IndexUrl(cik, f), filingType).value
                  && d.content.data == web.documents[d.record.url] && d.record.size == |d.content.data|)
            && (d.content.Text? ==> d.record.url == IndexUrl(cik, f) && d.record.size == 1000)
  {
  }

  /** An empty document is saved with size 0: a successful download does not
      always have a positive size. */
  lemma EmptyDocumentSize(ticker: string, f: FilingRef)
    requires f.url == Some("https://www.sec.gov/idx")
    ensures var web := Web(None, map[], map["https://www.sec.gov/idx" := Some([[Cell("1", None), Cell("d", None), Cell("f", Some("/doc.htm")), Cell("10-K", None)]])],
                           map["https://www.sec.gov/doc.htm" := []]);
            DownloadOf(ticker, SentinelCik, f, "10-k", web).record.size == 0
  {
    var row := [Cell("1", None), Cell("d", None), Cell("f", Some("/doc.htm")), Cell("10-K", None)];
    assert Upper("10-k") == "10-K" by { assert UpperChar('k') == 'K'; }
    assert Upper("10-K") == "10-K";
    assert RowMatches(row, "10-k");
    assert !StartsWith("/doc.htm", "/ix?doc=") by { assert "/doc.htm"[..8][1] != "/ix?doc="[1]; }
    assert MatchIndex([row], "10-k") == Some(0);
    assert FirstDocLink([row], "10-k") == Some("/doc.htm");
    assert BaseUrl + "/doc.htm" == "https://www.sec.gov/doc.htm";
  }

  // ---------------------------------------------------------------------------
  // The cache directory

  /** The cache after writing each download's content to its path in turn. */
  function StoreAll(files: map<string, Content>, ds: seq<Download>): map<string, Content>
    decreases |ds|
  {
    if ds == [] then files
    else StoreAll(files, ds[..|ds| - 1])[ds[|ds| - 1].record.path := ds[|ds| - 1].content]
  }

  /** The position of the last download written to `p`. */
  function LastWrite(ds: seq<Download>, p: string): (r: Option<nat>)
    decreases |ds|
    ensures r.None? <==> forall k :: 0 <= k < |ds| ==> ds[k].record.path != p
    ensures r.Some? ==> r.value < |ds| && ds[r.value].record.path == p
    ensures r.Some? ==> forall k :: r.value < k < |ds| ==> ds[k].record.path != p
  {
    if ds == [] then None
    else if ds[|ds| - 1].record.path == p then Some(|ds| - 1)
    else
      var r := LastWrite(ds[..|ds| - 1], p);
      assert forall k :: 0 <= k < |ds| - 1 ==> ds[..|ds| - 1][k] == ds[k];
      r
  }

  /** A path holds the content of the last download written to it; a path no
      download wrote to keeps what it had. */
  lemma {:induction false} StoreAllAt(files: map<string, Content>, ds: seq<Download>, p: string)
    ensures LastWrite(ds, p).Some? ==>
              p in StoreAll(files, ds) && StoreAll(files, ds)[p] == ds[LastWrite(ds, p).value].content
    ensures LastWrite(ds, p).None? ==>
              (p in StoreAll(files, ds) <==> p in files) && (p in files ==> StoreAll(files, ds)[p] == files[p])
    decreases |ds|
  {
    if ds != [] && ds[|ds| - 1].record.path != p {
      StoreAllAt(files, ds[..|ds| - 1], p);
    }
  }

  /** Storing one more download writes its content at its path over the cache
      the earlier downloads left. */
  lemma StoreAllStep(files: map<string, Content>, ds: seq<Download>, i: nat)
    requires i < |ds|
    ensures StoreAll(files, ds[..i + 1]) == StoreAll(files, ds[..i])[ds[i].record.path := ds[i].content]
  {
    assert ds[..i + 1][..i] == ds[..i];
  }

  /** Downloading the same filings again overwrites the same files with the same
      contents: the cache does not change. */
  lemma StoreAllIdempotent(files: map<string, Content>, ds: seq<Download>)
    ensures StoreAll(StoreAll(files, ds), ds) == StoreAll(files, ds)
  {
    var once := StoreAll(files, ds);
    var twice := StoreAll(once, ds);
    forall p ensures (p in twice <==> p in once) && (p in once ==> twice[p] == once[p]) {
      StoreAllAt(files, ds, p);
      StoreAllAt(once, ds, p);
    }
  }

  lemma {:induction false} StoreAllAppend(files: map<string, Content>, a: seq<Download>, b: seq<Download>)
    ensures StoreAll(files, a + b) == StoreAll(StoreAll(files, a), b)
    decreases |b|
  {
    if b == [] {
      assert a + b == a;
    } else {
      assert (a + b)[..|a + b| - 1] == a + b[..|b| - 1];
      StoreAllAppend(files, a, b[..|b| - 1]);
    }
  }

  // ---------------------------------------------------------------------------
  // _fetch_filing_type and fetch_filings

  /** The downloads `_fetch_filing_type(filing_type, years)` performs: the first
      three filings of the parsed feed, or none when the feed request fails. */
  function TypeOutcome(ticker: string, cik: string, filingType: string, years: int, now: real,
                       parse: DateParser, web: Web): seq<Download>
    requires AllDigits(cik)
  {
    if (cik, filingType) !in web.feeds then []
    else
      var fs := ParsedFeed(web.feeds[(cik, filingType)], years, now, parse);
      FirstDownloads(ticker, cik, fs, if |fs| < 3 then |fs| else 3, filingType, web)
  }

  /** The downloads of the first `n` filings of a feed, one appended per
      filing as the loop takes them: the i-th is the download of the i-th
      filing, so the list follows feed order. */
  function FirstDownloads(ticker: string, cik: string, fs: seq<FilingRef>, n: nat, filingType: string,
                          web: Web): (ds: seq<Download>)
    requires AllDigits(cik) && n <= |fs|
    ensures |ds| == n && forall i :: 0 <= i < n ==> ds[i] == DownloadOf(ticker, cik, fs[i], filingType, web)
    decreases n
  {
    if n == 0 then []
    else FirstDownloads(ticker, cik, fs, n - 1, filingType, web) + [DownloadOf(ticker, cik, fs[n - 1], filingType, web)]
  }

  /** The records the loop appends, one per download: the i-th record is the
      i-th download's, so none is dropped, added or reordered. */
  function Records(ds: seq<Download>): (r: seq<Downloaded>)
    ensures |r| == |ds| && forall i :: 0 <= i < |ds| ==> r[i] == ds[i].record
    decreases |ds|
  {
    if ds == [] then [] else Records(ds[..|ds| - 1]) + [ds[|ds| - 1].record]
  }

  lemma RecordsStep(ds: seq<Download>, i: nat)
    requires i < |ds|
    ensures Records(ds[..i + 1]) == Records(ds[..i]) + [ds[i].record]
  {
    var a, b := Records(ds[..i + 1]), Records(ds[..i]) + [ds[i].record];
    assert |a| == |b|;
    forall k | 0 <= k < |a| ensures a[k] == b[k] {
      assert ds[..i + 1][k] == ds[k];
    }
  }

  /** `min(3, n)` records for a feed of `n` kept filings, in feed order (newest
      first), each for its filing's date and accession number. */
  lemma TypeOutcomeSpec(ticker: string, cik: string, filingType: string, years: int, now: real,
                        parse: DateParser, web: Web)
    requires AllDigits(cik) && (cik, filingType) in web.feeds
    ensures var fs := ParsedFeed(web.feeds[(cik, filingType)], years, now, parse);
            var ds := TypeOutcome(ticker, cik, filingType, years, now, parse, web);
            && |ds| == (if |fs| < 3 then |fs| else 3)
            && (forall i :: 0 <= i < |ds| ==>
                  ds[i].record.date == fs[i].date && ds[i].record.accession == fs[i].accession
                  && ds[i].record.path == CachePath(ticker, filingType, fs[i].date))
            && (forall i, j :: 0 <= i < j < |ds| ==> LexLe(ds[j].record.date, ds[i].record.date))
  {
    var fs := ParsedFeed(web.feeds[(cik, filingType)], years, now, parse);
    var ds := TypeOutcome(ticker, cik, filingType, years, now, parse, web);
    forall i | 0 <= i < |ds| ensures ds[i].record.date == fs[i].date && ds[i].record.accession == fs[i].accession
                                     && ds[i].record.path == CachePath(ticker, filingType, fs[i].date) {
      DownloadRecord(ticker, cik, fs[i], filingType, web);
    }
  }

  /** The downloads of `fetch_filings(filing_types, years)`, type after type. */
  function AllOutcomes(ticker: string, cik: string, types: seq<string>, years: int, now: real,
                       parse: DateParser, web: Web): seq<Download>
    requires AllDigits(cik)
    decreases |types|
  {
    if types == [] then []
    else AllOutcomes(ticker, cik, types[..|types| - 1], years, now, parse, web)
         + TypeOutcome(ticker, cik, types[|types| - 1], years, now, parse, web)
  }

  /** A single type's downloads are that type's outcome. */
  lemma AllOutcomesSingle(ticker: string, cik: string, filingType: string, years: int, now: real,
                          parse: DateParser, web: Web)
    requires AllDigits(cik)
    ensures AllOutcomes(ticker, cik, [filingType], years, now, parse, web) ==
            TypeOutcome(ticker, cik, filingType, years, now, parse, web)
  {
    assert [filingType][..0] == [];
  }

  /** One more type adds its downloads after those of the earlier types. */
  lemma AllOutcomesStep(ticker: string, cik: string, types: seq<string>, i: nat, years: int, now: real,
                        parse: DateParser, web: Web)
    requires AllDigits(cik) && i < |types|
    ensures AllOutcomes(ticker, cik, types[..i + 1], years, now, parse, web) ==
            AllOutcomes(ticker, cik, types[..i], years, now, parse, web)
            + TypeOutcome(ticker, cik, types[i], years, now, parse, web)
  {
    assert types[..i + 1][..i] == types[..i];
  }

  /** The dictionary `fetch_filings` returns: one entry per requested type, a
      repeated type written again with the same records. */
  function TypeResults(ticker: string, cik: string, types: seq<string>, years: int, now: real,
                       parse: DateParser, web: Web): map<string, seq<Downloaded>>
    requires AllDigits(cik)
    decreases |types|
  {
    if types == [] then map[]
    else
      var last := types[|types| - 1];
      TypeResults(ticker, cik, types[..|types| - 1], years, now, parse, web)[
        last := Records(TypeOutcome(ticker, cik, last, years, now, parse, web))]
  }

  /** Its keys are exactly the requested types, each holding that type's records. */
  lemma {:induction false} TypeResultsSpec(ticker: string, cik: string, types: seq<string>, years: int,
                                           now: real, parse: DateParser, web: Web)
    requires AllDigits(cik)
    ensures var r := TypeResults(ticker, cik, types, years, now, parse, web);
            && r.Keys == (set t | t in types)
            && forall t :: t in types ==> r[t] == Records(TypeOutcome(ticker, cik, t, years, now, parse, web))
    decreases |types|
  {
    if types != [] {
      var init, last := types[..|types| - 1], types[|types| - 1];
      TypeResultsSpec(ticker, cik, init, years, now, parse, web);
      assert types == init + [last];
      TypeResultsPut(TypeResults(ticker, cik, init, years, now, parse, web), init, last,
                     Records(TypeOutcome(ticker, cik, last, years, now, parse, web)),
                     t => Records(TypeOutcome(ticker, cik, t, years, now, parse, web)));
    }
  }

  /** Writing the entry of one more type into a dictionary that holds `f(t)` for
      each earlier type gives one that holds `f(t)` for each type. */
  lemma TypeResultsPut(r: map<string, seq<Downloaded>>, init: seq<string>, last: string, v: seq<Downloaded>,
                       f: string -> seq<Downloaded>)
    requires r.Keys == (set t | t in init) && v == f(last)
    requires forall t :: t in init ==> r[t] == f(t)
    ensures r[last := v].Keys == (set t | t in init + [last])
    ensures forall t :: t in init + [last] ==> r[last := v][t] == f(t)
  {
    assert (set t | t in init + [last]) == (set t | t in init) + {last};
    forall t | t in init + [last] ensures r[last := v][t] == f(t) {
      if t != last {
        assert t in init;
      }
    }
  }

  /** Fetching one more type adds its entry. */
  lemma TypeResultsStep(ticker: string, cik: string, types: seq<string>, i: nat, years: int, now: real,
                        parse: DateParser, web: Web)
    requires AllDigits(cik) && i < |types|
    ensures TypeResults(ticker, cik, types[..i + 1], years, now, parse, web) ==
            TypeResults(ticker, cik, types[..i], years, now, parse, web)[
              types[i] := Records(TypeOutcome(ticker, cik, types[i], years, now, parse, web))]
  {
    assert types[..i + 1][..i] == types[..i];
  }

  // ---------------------------------------------------------------------------

  class SECFetcher {
    const ticker: string
    var cik: Option<string>
    var companyName: Option<string>
    /** The files under `data/cache/`, by path. */
    var files: map<string, Content>

    /** A CIK, once set, is a numeral of at least 10 digits. */
    predicate Valid()
      reads this
    {
      cik.Some? ==> AllDigits(cik.value) && |cik.value| >= 10
    }

    constructor (t: string, disk: map<string, Content>)
      ensures Valid()
      ensures ticker == Upper(t) && cik.None? && companyName.None? && files == disk
    {
      ticker := Upper(t);
      cik := None;
      companyName := None;
      files := disk;
    }

    /** `_get_cik`: the first entry whose upper-cased ticker equals the fetcher's
        sets the CIK and name; a failed request, a missing field or no match
        sets the sentinel CIK and "{ticker} Corp.". */
    method GetCik(table: Option<seq<TickerEntry>>) returns (c: string)
      modifies this`cik, this`companyName
      ensures Valid()
      ensures cik == Some(Resolve(table, ticker).cik) && companyName == Some(Resolve(table, ticker).name)
      ensures c == cik.value
    {
      ResolveCikShape(table, ticker);
      if table.Some? {
        var entries := table.value;
        var i := 0;
        while i < |entries|
          invariant 0 <= i <= |entries|
          invariant ResolveIn(entries[i..], ticker) == ResolveIn(entries, ticker)
        {
          var e := entries[i];
          assert entries[i..][0] == e;
          if e.ticker.None? {
            break;
          }
          if Upper(e.ticker.value) == ticker {
            if e.cikStr.None? {
              break;
            }
            cik := Some(PaddedCik(e.cikStr.value));
            if e.title.None? {
              break;
            }
            companyName := Some(e.title.value);
            return cik.value;
          }
          assert entries[i..][1..] == entries[i + 1..];
          i := i + 1;
        }
      }
      companyName := Some(ticker + " Corp.");
      cik := Some(SentinelCik);
      return cik.value;
    }

    /** `_parse_atom_feed`: the kept entries in feed order, then sorted newest first. */
    method ParseAtomFeed(es: seq<FeedEntry>, years: int, now: real, parse: DateParser)
      returns (filings: seq<FilingRef>)
      ensures filings == ParsedFeed(es, years, now, parse)
    {
      var cutoff := now - (365 * years) as real;
      assert cutoff == Cutoff(now, years);
      filings := [];
      var i := 0;
      while i < |es|
        invariant 0 <= i <= |es|
        invariant filings == Kept(es[..i], cutoff, parse)
      {
        var e := es[i];
        KeptStep(es, i, cutoff, parse);
        if e.filingDate.Some? {
          var day := parse(e.filingDate.value);
          if day.Some? && day.value as real >= cutoff {
            var acc := e.accessionNumber;
            if acc.None? {
              acc := e.accessionFallback;
            }
            if acc.Some? {
              filings := filings + [FilingRef(e.filingDate.value, acc.value, e.filingHref)];
            }
          }
        }
        i := i + 1;
      }
      assert es[..|es|] == es;
      filings := SortByDateDesc(filings);
    }

    /** `_download_filing`: writes the document, or a placeholder, to the cache. */
    method DownloadFiling(f: FilingRef, filingType: string, web: Web) returns (rec: Downloaded)
      requires Valid() && cik.Some?
      modifies this`files
      ensures Valid()
      ensures rec == DownloadOf(ticker, cik.value, f, filingType, web).record
      ensures files == old(files)[rec.path := DownloadOf(ticker, cik.value, f, filingType, web).content]
    {
      var indexUrl := IndexUrl(cik.value, f);
      var path := CachePath(ticker, filingType, f.date);
      if indexUrl !in web.indexPages {
        files := files[path := Text(ErrorPage(filingType, ticker, f.date))];
        return Downloaded(f.date, indexUrl, path, 1000, f.accession);
      }
      var docLink := FindDocLink(web.indexPages[indexUrl].GetOr([]), filingType);
      if docLink.None? || docLink.value == "" {
        files := files[path := Text(NoLinkPage(filingType, ticker))];
        return Downloaded(f.date, indexUrl, path, 1000, f.accession);
      }
      var docUrl := BaseUrl + docLink.value;
      if docUrl !in web.documents {
        files := files[path := Text(ErrorPage(filingType, ticker, f.date))];
        return Downloaded(f.date, indexUrl, path, 1000, f.accession);
      }
      var content := web.documents[docUrl];
      files := files[path := Bytes(content)];
      rec := Downloaded(f.date, docUrl, path, |content|, f.accession);
    }

    /** `_fetch_filing_type`: up to three downloads from the parsed feed. */
    method FetchFilingType(filingType: string, years: int, now: real, parse: DateParser, web: Web)
      returns (downloaded: seq<Downloaded>)
      requires Valid() && cik.Some?
      modifies this`files
      ensures Valid()
      ensures downloaded == Records(TypeOutcome(ticker, cik.value, filingType, years, now, parse, web))
      ensures files == StoreAll(old(files), TypeOutcome(ticker, cik.value, filingType, years, now, parse, web))
    {
      if (cik.value, filingType) !in web.feeds {
        return [];
      }
      var filings := ParseAtomFeed(web.feeds[(cik.value, filingType)], years, now, parse);
      if filings == [] {
        return [];
      }
      var n := if |filings| < 3 then |filings| else 3;
      downloaded := DownloadFirst(filings, n, filingType, web);
    }

    /** The loop over the first `n` filings of `_fetch_filing_type`. */
    method DownloadFirst(filings: seq<FilingRef>, n: nat, filingType: string, web: Web)
      returns (downloaded: seq<Downloaded>)
      requires Valid() && cik.Some? && n <= |filings|
      modifies this`files
      ensures Valid()
      ensures downloaded == Records(FirstDownloads(ticker, cik.value, filings, n, filingType, web))
      ensures files == StoreAll(old(files), FirstDownloads(ticker, cik.value, filings, n, filingType, web))
    {
      ghost var outcome := FirstDownloads(ticker, cik.value, filings, n, filingType, web);
      downloaded := [];
      var i := 0;
      while i < n
        invariant 0 <= i <= n
        invariant downloaded == Records(outcome[..i])
        invariant files == StoreAll(old(files), outcome[..i])
      {
        var result := DownloadFiling(filings[i], filingType, web);
        RecordsStep(outcome, i);
        StoreAllStep(old(files), outcome, i);
        downloaded := downloaded + [result];
        i := i + 1;
      }
      assert outcome[..n] == outcome;
    }

    /** `fetch_filings`: resolves the CIK first when it is not set, then one
        entry per requested type. */
    method FetchFilings(types: seq<string>, years: int, now: real, parse: DateParser, web: Web)
      returns (results: map<string, seq<Downloaded>>)
      requires Valid()
      modifies this
      ensures Valid() && cik.Some?
      ensures old(cik).Some? ==> cik == old(cik) && companyName == old(companyName)
      ensures old(cik).None? ==> cik == Some(Resolve(web.tickerTable, ticker).cik)
                                 && companyName == Some(Resolve(web.tickerTable, ticker).name)
      ensures results.Keys == set t | t in types
      ensures forall t :: t in types ==>
                results[t] == Records(TypeOutcome(ticker, cik.value, t, years, now, parse, web))
      ensures files == StoreAll(old(files), AllOutcomes(ticker, cik.value, types, years, now, parse, web))
    {
      if cik.None? || cik.value == "" {
        var _ := GetCik(web.tickerTable);
      }
      results := FetchTypes(types, years, now, parse, web);
      TypeResultsSpec(ticker, cik.value, types, years, now, parse, web);
    }

    /** The per-type loop of `fetch_filings`, once the CIK is known. */
    method FetchTypes(types: seq<string>, years: int, now: real, parse: DateParser, web: Web)
      returns (results: map<string, seq<Downloaded>>)
      requires Valid() && cik.Some?
      modifies this`files
      ensures Valid()
      ensures results == TypeResults(ticker, cik.value, types, years, now, parse, web)
      ensures files == StoreAll(old(files), AllOutcomes(ticker, cik.value, types, years, now, parse, web))
    {
      results := map[];
      ghost var c := cik.value;
      ghost var start := files;
      var i := 0;
      while i < |types|
        invariant 0 <= i <= |types|
        invariant results == TypeResults(ticker, c, types[..i], years, now, parse, web)
        invariant files == StoreAll(start, AllOutcomes(ticker, c, types[..i], years, now, parse, web))
      {
        ghost var done := AllOutcomes(ticker, c, types[..i], years, now, parse, web);
        ghost var next := TypeOutcome(ticker, c, types[i], years, now, parse, web);
        var recs := FetchFilingType(types[i], years, now, parse, web);
        AllOutcomesStep(ticker, c, types, i, years, now, parse, web);
        StoreAllAppend(start, done, next);
        TypeResultsStep(ticker, c, types, i, years, now, parse, web);
        results := results[types[i] := recs];
        i := i + 1;
      }
      assert types[..|types|] == types;
    }

    /** `get_latest_filing`: the cache path of the newest filing of the type in the
        last year, or `None` when there is none. */
    method GetLatestFiling(filingType: string, now: real, parse: DateParser, web: Web)
      returns (path: Option<string>)
      requires Valid()
      modifies this
      ensures Valid() && cik.Some?
      ensures path.Some? <==> (cik.value, filingType) in web.feeds
                              && ParsedFeed(web.feeds[(cik.value, filingType)], 1, now, parse) != []
      ensures path.Some? ==>
                path.value == CachePath(ticker, filingType, ParsedFeed(web.feeds[(cik.value, filingType)], 1, now, parse)[0].date)
      ensures old(cik).Some? ==> cik == old(cik) && companyName == old(companyName)
      ensures old(cik).None? ==> cik == Some(Resolve(web.tickerTable, ticker).cik)
                                 && companyName == Some(Resolve(web.tickerTable, ticker).name)
      ensures files == StoreAll(old(files), TypeOutcome(ticker, cik.value, filingType, 1, now, parse, web))
    {
      var filings: map<string, seq<Downloaded>> := FetchFilings([filingType], 1, now, parse, web);
      AllOutcomesSingle(ticker, cik.value, filingType, 1, now, parse, web);
      if filingType in filings && |filings[filingType]| > 0 {
        path := Some(filings[filingType][0].path);
      } else {
        path := None;
      }
      if (cik.value, filingType) in web.feeds {
        TypeOutcomeSpec(ticker, cik.value, filingType, 1, now, parse, web);
      }
    }
  }
}

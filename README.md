# Activist-investor filing pipeline: a Dafny model

The repository is an "activist investor" analysis tool. Given a stock ticker, it
finds the company's recent SEC filings on EDGAR (10-K annual reports, DEF 14A
proxy statements, 8-K current reports) and downloads them into a local cache.
It extracts financial and governance figures from them with the LandingAI
document-extraction SDK, falling back to demo data. It compares the company's
returns with an industry peer group and writes a PDF report. This project
models four parts of that pipeline and proves their properties:

- **The filing locator and retriever** (`tools/sec_fetcher.py`, class
  `SECFetcher`): modules `AtomFeed` and `SecFetcher`. It covers:
  - resolving the ticker to a ten-digit CIK (Central Index Key), with a placeholder when that fails;
  - parsing the Atom feed of filings (skipping malformed entries, the lookback window, newest first);
  - the archive index URL and the cache file path;
  - choosing the primary document on the index page;
  - the download records and what each download writes to the cache.

  Every HTTP response is an input value (`SecFetcher.Web`). The cache
  directory is the fetcher's `files` map, which the methods update.
- **The schema extractor and merge coordinator** (`tools/ade_extractor.py`):
  module `AdeExtractor`, with class `Extractor` for the object whose
  `current_ticker` changes. It covers:
  - the all-zero default records and the demo data;
  - mapping an SDK extraction onto the 10-K and proxy records;
  - the average director tenure and the 8-K event labels;
  - inferring the ticker from a cache filename;
  - the merge of the task results, which always fills the `10k`, `proxy` and `8k` sections.

  The SDK and the HTML-to-markdown converter are inputs (`Sdk`, `converts`).
- **The peer comparator** (`tools/peer_comparator.py`): module
  `PeerComparator`. It covers:
  - removing the target from the peer group;
  - medians, percentile ranks and gaps;
  - the guarded performance score, the piecewise upside rule and the implied market cap.

  Values are `real`.
- **The PDF text cleaner** (`clean_text_for_pdf` in `app.py`): module
  `PdfText`. Each stage of the cleaner is a function of its own (markdown
  headings, emphasis, dash line-breaks, smart punctuation, HTML entities,
  Latin-1 filtering), and their composition is proved to leave no markdown
  heading, no smart character and no character outside Latin-1.

Modules `Wrappers` (an `Option` type) and `Strings` support these. `Strings`
states the behaviour of the Python string operations the code uses:
`str.upper`, `str.replace`, `str.split`, `str.zfill`, `str(int)`, `int(str)`,
string ordering, `os.path.join` and `os.path.basename`.

## Model

| member | source | states |
|---|---|---|
| AtomFeed.Accepted | tools/sec_fetcher.py:136-156 | whether a feed entry yields a filing record; its meaning is stated by KeptMembers |
| AtomFeed.Kept | tools/sec_fetcher.py:134-168 | the records of the accepted entries in feed order; stated by KeptMembers |
| AtomFeed.ParsedFeed | tools/sec_fetcher.py:125-177 | the parsed feed; stated by ParsedFeedSpec and ParsedFeedWithinWindow |
| AtomFeed.KeptMembers | tools/sec_fetcher.py:134-168 | a record is kept exactly when some entry has a date that parses, is not before the cutoff, and has an accession number (the tag or the loose fallback pattern); the record is that entry's date, accession and optional href |
| AtomFeed.InsertByDate | tools/sec_fetcher.py:175 | inserting one record adds exactly that record (multiset of the result = multiset of the list plus the record) |
| AtomFeed.InsertByDateMembers | tools/sec_fetcher.py:175 | after the insertion, the members are the inserted record and the old members, and nothing else |
| AtomFeed.InsertSorted | tools/sec_fetcher.py:175 | inserting into a list sorted newest first keeps it sorted |
| AtomFeed.SortByDateDesc | tools/sec_fetcher.py:175 | the sort result is ordered by non-increasing date string and is a permutation of its input |
| AtomFeed.InsertStable | tools/sec_fetcher.py:175 | inserting a record keeps the relative order of records with any one date |
| AtomFeed.SortStable | tools/sec_fetcher.py:175 | the sort is stable: records sharing a date keep their feed order, as Python's stable sort with reverse=True does |
| AtomFeed.ParsedFeedSpec | tools/sec_fetcher.py:125-177 | the parsed feed is sorted newest first, is a permutation of the kept records, and holds exactly the records of the accepted entries |
| AtomFeed.ParsedFeedWithinWindow | tools/sec_fetcher.py:129-146 | every parsed filing has a date no earlier than now minus 365·years days |
| SecFetcher.ResolveIn | tools/sec_fetcher.py:39-53 | the scan of a fetched ticker table; stated by ResolveFirstMatch, ResolveNoMatch and ResolveInCikShape |
| SecFetcher.Resolve | tools/sec_fetcher.py:33-53 | the CIK and name resolution, with the fallback for a failed table request; stated by ResolveCikShape and, for a fetched table, by the ResolveIn lemmas |
| SecFetcher.ResolveFirstMatch | tools/sec_fetcher.py:39-53 | when every earlier entry has a different upper-cased ticker, the first matching entry decides the result: its CIK zero-padded to width 10 and its title, or the fallback if that entry lacks a CIK or title |
| SecFetcher.ResolveNoMatch | tools/sec_fetcher.py:46-53 | when no entry matches, the CIK is "0000000000" and the name is "{ticker} Corp." |
| SecFetcher.PaddedCikSpec | tools/sec_fetcher.py:41 | the padded CIK is a numeral whose value is the CIK; it is exactly 10 characters for short numbers, and a number of 10 or more digits is left unchanged |
| SecFetcher.ResolveCikShape | tools/sec_fetcher.py:33-53 | whatever the ticker table response, failed or not, the resolved CIK is all digits and at least 10 long |
| SecFetcher.ResolveInCikShape | tools/sec_fetcher.py:39-53 | the same shape holds for every scan of a fetched table |
| SecFetcher.CikNoPadRoundTrip | tools/sec_fetcher.py:188 | stripping the padding from a padded CIK gives back the CIK's decimal numeral (the placeholder gives "0") |
| SecFetcher.IndexUrl | tools/sec_fetcher.py:186-190 | the filing's index URL; stated by ArchiveIndexUrl and CikNoPadRoundTrip |
| SecFetcher.ArchiveIndexUrl | tools/sec_fetcher.py:186-190 | for a filing without a URL, the index URL is BASE/Archives/edgar/data/{CIK without leading zeros}/{accession with every '-' removed}/{accession}-index.html, and that middle part has no '-' |
| SecFetcher.SafeTypeClean | tools/sec_fetcher.py:196 | the sanitised filing type holds no space and no '/' |
| SecFetcher.CachePath | tools/sec_fetcher.py:193-198 | the cache file of a filing; stated by CachePathLayout and SafeTypeClean |
| SecFetcher.CachePathLayout | tools/sec_fetcher.py:193-198 | the cache path is data/cache/{ticker}/{ticker}_{safe type}_{date}.html, a function of ticker, type and date alone |
| SecFetcher.MatchIndex | tools/sec_fetcher.py:212-222 | the chosen row is the first with more than 3 cells, a type cell equal to the filing type case-insensitively and a link in cell 2; none is chosen exactly when no row qualifies |
| SecFetcher.UnwrapViewerSpec | tools/sec_fetcher.py:225-232 | a `/ix?doc=` viewer href yields its text after the last `?doc=` (the href ends with `?doc=` + result, and the result holds no `?doc=`); any other href is returned verbatim |
| SecFetcher.FindDocLink | tools/sec_fetcher.py:209-234 | the row loop with its early break returns the unwrapped link of the first qualifying row, or none |
| SecFetcher.DownloadOf | tools/sec_fetcher.py:179-284 | the record and the file content of one download; stated by DownloadRecord and EmptyDocumentSize |
| SecFetcher.DownloadRecord | tools/sec_fetcher.py:179-284 | every download keeps the filing's date and accession and uses the cache path. It succeeds exactly when the index page, a link and the document are all obtained, and then the URL is BASE + link and the size is the document's length. On every failure path (no link, or any failed request) the URL is the index URL and the size is 1000 |
| SecFetcher.EmptyDocumentSize | tools/sec_fetcher.py:253-269 | a successfully fetched empty document gives a record of size 0 |
| SecFetcher.LastWrite | tools/sec_fetcher.py:239-277 | the last download that writes a given cache path, or none when no download writes it |
| SecFetcher.StoreAllAt | tools/sec_fetcher.py:239-277 | after a series of downloads, each path holds the content of the last download written to it, and paths that no download writes are unchanged |
| SecFetcher.StoreAllIdempotent | tools/sec_fetcher.py:193-198 | repeating the same downloads leaves the cache as one run left it (re-downloading overwrites the same files) |
| SecFetcher.StoreAllAppend | tools/sec_fetcher.py:68-71 | writing two batches of downloads one after the other equals writing their concatenation |
| SecFetcher.FirstDownloads | tools/sec_fetcher.py:111-117 | built one download per loop step; proved: exactly n downloads, the i-th being the download of the i-th filing, so feed order is kept |
| SecFetcher.Records | tools/sec_fetcher.py:111-119 | built one record per loop step; proved: one record per download, the i-th being the i-th download's, so none is dropped, added or reordered |
| SecFetcher.TypeOutcome | tools/sec_fetcher.py:75-123 | the downloads of one filing type; stated by TypeOutcomeSpec |
| SecFetcher.TypeOutcomeSpec | tools/sec_fetcher.py:75-123 | a fetched feed gives min(3, n) records for n parsed filings, in feed order. Each has its filing's date, accession and cache path, and the dates are non-increasing |
| SecFetcher.TypeResults | tools/sec_fetcher.py:66-73 | the dictionary of records by type; stated by TypeResultsSpec |
| SecFetcher.TypeResultsSpec | tools/sec_fetcher.py:66-73 | the result dictionary has exactly one key per requested type, holding that type's records |
| SecFetcher.SECFetcher.constructor | tools/sec_fetcher.py:14-23 | the ticker is upper-cased, CIK and company name are unset, and the cache is the given directory contents |
| SecFetcher.SECFetcher.GetCik | tools/sec_fetcher.py:25-53 | the CIK and company name fields are set to the resolution of the ticker table (first match, or the fallback) and the CIK is returned |
| SecFetcher.SECFetcher.ParseAtomFeed | tools/sec_fetcher.py:125-177 | the entry loop and the in-place sort return the parsed feed (sorted newest first, a permutation of the accepted entries' records) |
| SecFetcher.SECFetcher.DownloadFiling | tools/sec_fetcher.py:179-284 | returns the download's record and writes its content (document bytes or placeholder page) to its cache path, leaving other files unchanged |
| SecFetcher.SECFetcher.FetchFilingType | tools/sec_fetcher.py:75-123 | returns the records of the first three filings of the parsed feed (none when the feed request fails) and writes each download in order |
| SecFetcher.SECFetcher.DownloadFirst | tools/sec_fetcher.py:111-119 | the download loop returns the first n filings' records and writes their contents in order |
| SecFetcher.SECFetcher.FetchFilings | tools/sec_fetcher.py:55-73 | resolves the CIK only when unset. The result has exactly one key per requested type, each holding that type's records, and the cache receives every type's downloads in order |
| SecFetcher.SECFetcher.FetchTypes | tools/sec_fetcher.py:66-73 | the loop over types builds the result dictionary and writes every type's downloads in order |
| SecFetcher.SECFetcher.GetLatestFiling | tools/sec_fetcher.py:286-291 | a path is returned exactly when the one-year feed has a filing, and it is the cache path of the newest one. The CIK and company name are kept when set and resolved otherwise, and the cache receives the downloads of that one type |
| AdeExtractor.DefaultTenKZero | tools/ade_extractor.py:321-336 | the default 10-K record has exactly twelve distinct fields, all 0 |
| AdeExtractor.DefaultProxyZero | tools/ade_extractor.py:338-351 | the default proxy record has every numeric field 0 and no board members |
| AdeExtractor.DemoData | tools/ade_extractor.py:353-391 | the demo record for the current ticker; stated by DemoDataIsAapl |
| AdeExtractor.DemoDataIsAapl | tools/ade_extractor.py:353-391 | any current ticker (unset, empty, AAPL or unknown) gets AAPL's demo record, which has all three sections and revenue_current 383285000000 |
| AdeExtractor.TenKFromExtraction | tools/ade_extractor.py:192-205 | the 10-K record of an extraction; stated by TenKFromExtractionSpec and EmptyTenKIsDefault |
| AdeExtractor.TenKFromExtractionSpec | tools/ade_extractor.py:192-205 | each 10-K field holds the extracted schema field of the same name, or 0 when absent; revenue_prior_2 and net_income_prior_1 are exactly the fields outside the schema, always 0 |
| AdeExtractor.ExtractFirst | tools/ade_extractor.py:143-187 | the SDK answer for the most recent filing, if every step succeeds; stated by ExtractFirstSpec |
| AdeExtractor.ExtractFirstSpec | tools/ade_extractor.py:143-187 | extraction fails with no filings, no client or no path. Otherwise it succeeds exactly when the file to hand over exists (an HTML file must convert, to its .md path) and the SDK answers for it, and the result is that answer |
| AdeExtractor.EmptyTenKIsDefault | tools/ade_extractor.py:192-205 | an extraction with no fields maps to the all-zero default 10-K record |
| AdeExtractor.Extract10k | tools/ade_extractor.py:138-209 | revenue_prior_2 and net_income_prior_1 are always 0. Every failed extraction (see ExtractFirstSpec) gives the all-zero default, in particular no filings or no client; a successful one gives its mapped record |
| AdeExtractor.MeanTenure | tools/ade_extractor.py:265-269 | the average tenure times the number of members is the sum of their tenures (a missing tenure counts 0); it is 0 with no members |
| AdeExtractor.TenureSumBounds | tools/ade_extractor.py:268-269 | the tenure sum lies between n·lo and n·hi when every tenure does between lo and hi |
| AdeExtractor.MeanTenureBounds | tools/ade_extractor.py:265-269 | the average tenure lies within any bounds of the members' tenures |
| AdeExtractor.ProxyFromExtraction | tools/ade_extractor.py:264-282 | the proxy record of an extraction; stated by ProxyFromExtractionSpec |
| AdeExtractor.ProxyFromExtractionSpec | tools/ade_extractor.py:264-282 | the six governance fields are copied (0 when absent), the members are the extracted list (none without the key), the average tenure is their mean, and the other three figures are 0; an empty extraction gives the default record |
| AdeExtractor.ExtractProxy | tools/ade_extractor.py:211-286 | prior-year compensation, bonus and stock awards are always 0. The average tenure is the mean of the listed members' tenures, or 0 with no members. Every failed extraction gives the default record, in particular no filings or no client; a successful one gives its mapped record |
| AdeExtractor.Events | tools/ade_extractor.py:294-301 | min(3, n) events for n filings, in order, each "Material event on {date}" with "unknown date" for a filing without one |
| AdeExtractor.Extract8kData | tools/ade_extractor.py:288-305 | the append loop returns exactly the `8k` section with those min(3, n) labels |
| AdeExtractor.EnsureRequiredFields | tools/ade_extractor.py:307-319 | afterwards the keys are the old ones plus `10k`, `proxy`, `8k`. Existing values are untouched and each missing key gets its default |
| AdeExtractor.RunEnd | tools/ade_extractor.py:84 | the end of the maximal run of A-Z letters starting at a position |
| AdeExtractor.LeftmostMatch | tools/ade_extractor.py:84 | the leftmost position where `[A-Z]+_` matches, or none exactly when it matches nowhere |
| AdeExtractor.TickerMatch | tools/ade_extractor.py:84 | the `[A-Z]+_` match in a filename; stated by TickerMatchSpec |
| AdeExtractor.TickerMatchSpec | tools/ade_extractor.py:84-86 | the inferred ticker is a non-empty run of capitals followed by `_`, at the leftmost match, not preceded by a capital; there is none exactly when the pattern matches nowhere |
| AdeExtractor.InferTicker | tools/ade_extractor.py:81-87 | the ticker after the category scan; stated by InferTickerFirst and InferTickerNone |
| AdeExtractor.InferTickerFirst | tools/ade_extractor.py:81-87 | only the first non-empty category is looked at: the match in the basename of its first document, or the old ticker when there is no match |
| AdeExtractor.InferTickerNone | tools/ade_extractor.py:81-87 | with every category empty, the ticker is unchanged |
| AdeExtractor.Combine | tools/ade_extractor.py:114-117 | the left-to-right merge of the task results; stated by CombineAt, CombineConcat and RaisedTaskSkipped |
| AdeExtractor.CombineConcat | tools/ade_extractor.py:114-117 | folding two result lists equals merging their folds, later keys winning |
| AdeExtractor.LastProvider | tools/ade_extractor.py:114-117 | the last completed task whose dictionary holds a key, or none exactly when no task provides it |
| AdeExtractor.CombineAt | tools/ade_extractor.py:113-120 | a key is in the combined dictionary exactly when some completed task provides it, and its value is the last provider's |
| AdeExtractor.RaisedTaskSkipped | tools/ade_extractor.py:115-119 | a task that raised, before or after a completed one, changes nothing in the final dictionary |
| AdeExtractor.Tasks | tools/ade_extractor.py:95-104 | the extraction tasks of the categories with documents; stated by CombineTasks and Extractor.CollectTasks |
| AdeExtractor.CombineTasks | tools/ade_extractor.py:95-117 | the tasks' fold is the union of the 10-K, proxy and 8-K sections of the categories that have documents |
| AdeExtractor.FillParts | tools/ade_extractor.py:122 | when an absent category's section equals its default, ensuring the required fields gives exactly the three sections with their extracted values |
| AdeExtractor.ProcessAll | tools/ade_extractor.py:89-124 | the result of `process_all_documents`; stated by ProcessAllKeys and ProcessAllSections |
| AdeExtractor.ProcessAllKeys | tools/ade_extractor.py:89-124 | the three required keys are always present. With no client, or with no documents in any of the three categories, the result is AAPL's demo data |
| AdeExtractor.ProcessAllSections | tools/ade_extractor.py:94-124 | with a client and some documents, the result has exactly the keys `10k`, `proxy`, `8k`, each the extraction of its category (the default for an empty one) |
| AdeExtractor.Gather | tools/ade_extractor.py:111-120 | the update loop gives each key the value of the last task that provides it, skipping tasks that raised |
| AdeExtractor.Extractor.constructor | tools/ade_extractor.py:17-33 | the client exists only for a non-empty API key, and the current ticker is unset |
| AdeExtractor.Extractor.InferCurrentTicker | tools/ade_extractor.py:80-87 | the category loop sets the current ticker to the inference from the first non-empty category, or leaves it |
| AdeExtractor.Extractor.CollectTasks | tools/ade_extractor.py:95-104 | tasks in the order 10-K, DEF 14A, 8-K, one per category with documents |
| AdeExtractor.Extractor.ProcessAllDocuments | tools/ade_extractor.py:67-124 | the current ticker is set as above, and the result is the demo data (no client or no tasks) or the merged, completed sections |
| PeerComparator.Others | tools/peer_comparator.py:46 | the filtered peer list is never longer than the industry list |
| PeerComparator.OthersMembers | tools/peer_comparator.py:46 | a peer is in the group exactly when it is in the industry list with a ticker other than the target's |
| PeerComparator.OthersOrder | tools/peer_comparator.py:53-55 | the group keeps the industry list's order |
| PeerComparator.OthersKeepsAll | tools/peer_comparator.py:46 | a target outside the list removes nothing |
| PeerComparator.SortAsc | tools/peer_comparator.py:59-61 | the sorted values are ascending and a permutation of the input |
| PeerComparator.SortedUnique | tools/peer_comparator.py:59-61 | two ascending arrangements of the same values are equal, so the median is well defined |
| PeerComparator.Median | tools/peer_comparator.py:58-61 | `statistics.median`; stated by SortedUnique, MedianBounds and MedianPermutation |
| PeerComparator.PeerMedian | tools/peer_comparator.py:59-61 | the median, 0 for no peers; its place in the gaps and the score is stated by CompareToPeersSpec |
| PeerComparator.MedianBounds | tools/peer_comparator.py:59-61 | the median lies within any bounds of the values |
| PeerComparator.MedianPermutation | tools/peer_comparator.py:59-61 | the median does not depend on the order of the values |
| PeerComparator.CountBelow | tools/peer_comparator.py:102 | the number of values strictly below is at most the number of values |
| PeerComparator.CountBelowMonotone | tools/peer_comparator.py:102 | a larger value has at least as many peers below it |
| PeerComparator.CountBelowExtremes | tools/peer_comparator.py:102 | all peers are below a value above every peer; none are below a value at or under every peer |
| PeerComparator.Percentile | tools/peer_comparator.py:98-103 | 50 for no peers; otherwise 100·(count strictly below)/n; always within [0, 100] |
| PeerComparator.PercentileRank | tools/peer_comparator.py:98-103 | the rank is monotone in the value, 100 above every peer and 0 at or below every peer |
| PeerComparator.PerformanceScore | tools/peer_comparator.py:70-72 | the weighted performance score; its divisors are stated by Guard |
| PeerComparator.Guard | tools/peer_comparator.py:70-72 | the divisor max(median, 1) is at least 1 (never zero) and is the median when that is at least 1 |
| PeerComparator.Upside | tools/peer_comparator.py:74-80 | the piecewise upside; stated by UpsideShape |
| PeerComparator.UpsideShape | tools/peer_comparator.py:74-80 | the upside never falls as the score rises. It is negative exactly when the score is below 0.9, exactly 5 within [0.9, 1.1], and above 5 beyond 1.1 |
| PeerComparator.ImpliedMarketCap | tools/peer_comparator.py:82-83 | the market cap scaled by the upside; stated by ImpliedMarketCapSign |
| PeerComparator.ImpliedMarketCapSign | tools/peer_comparator.py:82-83 | for a positive market cap, the implied value is above it exactly when the upside is positive and equal to it exactly when the upside is 0 |
| PeerComparator.PeerGroupSpec | tools/peer_comparator.py:46 | the target never appears in the peer group, and every other ticker of the list does |
| PeerComparator.CompareAgainst | tools/peer_comparator.py:46-96 | the comparison record against a peer list; stated by CompareToPeersSpec |
| PeerComparator.CompareToPeers | tools/peer_comparator.py:42-96 | `compare_to_peers`; stated by CompareToPeersSpec, UnknownIndustry and ExampleComparison |
| PeerComparator.CompareToPeersSpec | tools/peer_comparator.py:42-96 | the record names the target and excludes it from the group. Each gap is the target metric (0 if missing) minus the median of the filtered peers (0 if none), and the percentiles are ranks among those peers, within [0, 100]. The upside is the piecewise function of the 0.4/0.3/0.3 performance score against the three medians, and the implied market cap is the current one scaled by that upside |
| PeerComparator.UnknownIndustry | tools/peer_comparator.py:45 | an industry other than technology gives the technology comparison |
| PeerComparator.ExampleComparison | tools/peer_comparator.py:30-110 | example: the module's run for TARGET (ROE 18.5, ROIC 12, margin 22, market cap 1e11) against the technology list gives the whole seven-company group, percentiles 100/7, 100/7 and 300/7, gaps -7.5, -10 and -5 against medians 26, 22 and 27, upside -3955/429 % (score 1783/2574, below 0.9) and implied market cap 38945000000000/429 |
| PdfText.DropHashes | app.py:162 | drops exactly the leading run of '#': the removed prefix is all '#' and the suffix left does not start with '#' |
| PdfText.DropSpaces | app.py:162 | drops exactly the leading whitespace: the removed prefix is all whitespace and the suffix left does not start with whitespace |
| PdfText.StripHeadings | app.py:162 | the result has no '#' and no character that was not in the input |
| PdfText.StripHeadingsIdentity | app.py:162 | text without '#' is unchanged |
| PdfText.StripEmphasis | app.py:163 | the result has no '*' and no new character |
| PdfText.StripEmphasisRemovesStars | app.py:163 | removing "**" and then "*" equals removing every '*' |
| PdfText.PairsThenStars | app.py:163 | removing every "**" first makes no difference to removing every '*' |
| PdfText.StripDashBreaks | app.py:164 | the result has no character that was not in the input |
| PdfText.DashBreaksGone | app.py:164 | no '-' followed by whitespace is left |
| PdfText.StripDashBreaksIdentity | app.py:164 | text without '-' is unchanged |
| PdfText.ReplaceSmartPunctuation | app.py:168-173 | no smart apostrophe, quote, dash or bullet is left; every other character was in the input or is a replacement; an asterisk appears only if the input held one or a bullet |
| PdfText.SmartStages | app.py:168-173 | the six replacement stages in order, each removing its character and adding only its replacement, compose to the above |
| PdfText.StageChars | app.py:168-173 | one single-character replacement removes that character and adds only its replacement |
| PdfText.SmartIdentity | app.py:168-173 | text without smart characters is unchanged |
| PdfText.DecodeEntities | app.py:176 | the decoded text has no character outside the input and '&', '<', '>' |
| PdfText.DoubleEncodedLessThan | app.py:176 | the entities are decoded in the order &amp;, &lt;, &gt;, so "&amp;lt;" becomes "<" |
| PdfText.EntitiesIdentity | app.py:176 | text without '&' is unchanged |
| PdfText.Latin1 | app.py:179 | the result holds only code points below 256: exactly the input's Latin-1 characters |
| PdfText.Latin1Identity | app.py:179 | Latin-1 text is unchanged |
| PdfText.CleanTextForPdf | app.py:159-179 | the six cleaning stages in order; stated by CleanTextSpec and CleanTextPlain |
| PdfText.CleanTextSpec | app.py:159-179 | the cleaned text is Latin-1 only, has no '#' and no smart character, and has an asterisk only if the input held a bullet |
| PdfText.CleanTextPlain | app.py:159-179 | ASCII text without '#', '*', '-' or '&' is returned unchanged |
| Strings.NatToDecimal | tools/sec_fetcher.py:41 | `str(n)`: a non-empty numeral, starting with '0' only for 0 |
| Strings.DecimalRoundTrip | tools/sec_fetcher.py:188 | `int(str(n)) == n` |
| Strings.ZeroFill | tools/sec_fetcher.py:41 | `zfill(width)`: a string at least as wide is unchanged; a shorter one is left-padded with zeros to exactly the width |
| Strings.IndexOf | tools/sec_fetcher.py:228 | the first occurrence of a separator, or none exactly when it does not occur |
| Strings.JoinSplit | tools/sec_fetcher.py:228 | joining the pieces of `split(sep)` with `sep` gives the string back |
| Strings.SplitPiecesFree | tools/sec_fetcher.py:228 | no piece of `split(sep)` contains `sep` |
| Strings.SplitLast | tools/sec_fetcher.py:228 | the string ends with the last piece and, when the separator occurs, with the separator followed by it |
| Strings.ReplaceAll | tools/sec_fetcher.py:189 | `str.replace` introduces no character other than those of the replacement |
| Strings.ReplaceCharByNothing | tools/sec_fetcher.py:189 | replacing a character by "" removes exactly its occurrences and nothing else |
| Strings.ReplaceAllIdentity | app.py:168-173 | a replacement whose pattern cannot start anywhere in the text leaves it unchanged |
| Strings.LexLeTotal | tools/sec_fetcher.py:175 | any two date strings are comparable |
| Strings.LexLeTrans | tools/sec_fetcher.py:175 | string order is transitive |

## Left out

- HTTP requests, `time.sleep` throttling, timeouts and the request headers are not modelled. Each response is an input value (`SecFetcher.Web`): a missing key is a request that raised or returned an error status.
- `datetime.now()` is the parameter `now`, a day number with the time of day as its fraction. `datetime.strptime` is the oracle parameter `parse`; its calendar validation is not modelled.
- The regular expressions that cut the feed into `<entry>` blocks and capture each tag are not modelled. Each entry is given as what those patterns capture (`AtomFeed.FeedEntry`).
- BeautifulSoup parsing of the index page is not modelled either. The document table is given as rows of cells (stripped text and first link), with `None` when the page has no "Document Format Files" table.
- The error handling around `os.makedirs` and file writes (a failing directory creation or write raises out of `_download_filing`) is not modelled; the cache is a map that is always written.
- `_html_to_markdown` file I/O and the `html2text` conversion are not modelled. The paths that convert successfully are the parameter `converts`, and only the derived `.md` path is modelled (`AdeExtractor.MarkdownPath`).
- The LandingAI SDK call and the pydantic schema construction are not modelled. The SDK is the map `Sdk.results` from (schema, file) to an extraction; a missing entry is a call that raised.
- The client construction in the extractor constructor is given as an input: a failed SDK import or initialisation is passed as no client.
- `asyncio.gather` and `asyncio.to_thread` concurrency are not modelled. The tasks are a sequential list of outcomes folded left to right; a `Raised` outcome is supported by the fold, but the extractors catch their own errors, so the model's tasks always complete.
- The JSON values of an extraction are reals or absent. A JSON `null`, or a value of the wrong type, is not modelled.
- Strings.Upper: only ASCII letters are upper-cased, and Python's full Unicode case mapping is not modelled.
- Strings.Lower: likewise ASCII-only.
- AtomFeed.Cutoff: `now - 365 * years` is unbounded. Python's `timedelta(days=365 * years)` and the subtraction raise `OverflowError` when the day count exceeds 999999999 or the date leaves years 1 to 9999; the `except` in `_fetch_filing_type` then returns no filings for that type. That error path is not modelled, so for such `years` the model keeps entries the code would return none of.
- SecFetcher.PaddedCik: `cik_str` is a natural number. A negative or non-integer value, whose sign `zfill` would place before the zeros, is not modelled.
- PdfText.IsSpace: stands for Python's `\s` in a `str` pattern as the `str.isspace()` characters.
- Float rounding in the peer comparator and in the average tenure is not modelled (values are `real`). `statistics.median` is modelled only through its mathematical definition over the sorted list.
- PeerComparator.Others: its own contract bounds the length only; membership and order are stated by `OthersMembers` and `OthersOrder`.
- `_ensure_required_fields` mutates its argument and returns it. The model returns the completed dictionary as a value (`EnsureRequiredFields`); the caller's dictionary is not aliased.
- The `except` branch of `extract_8k_data` is not modelled: appending a label cannot raise for the modelled filing records.
- The `print` output, the emoji console messages and the "small file" warning have no effect on results and are not modelled.
- The `LandingAIDirectExtractor` alias class and the rest of `app.py` (the Streamlit UI, the PDF report, `run_analysis`) are not part of this model.

## Edge cases the model keeps

Three behaviours of the code are easy to miss, and the model keeps each:

- SecFetcher.EmptyDocumentSize: a successful download's `size` is `len(content)`, so an empty document gives size 0, while the placeholder of a failed download always has size 1000.
- AdeExtractor.ProcessAllKeys: `process_all_documents` with categories that are all empty, for example `{"10-K": [], "DEF 14A": []}`, creates no task and returns AAPL's demo data, not the default records.
- SecFetcher.ArchiveIndexUrl and SecFetcher.DocLink: an empty `url` on a filing, or an empty document link on the index page, is falsy in Python and is treated like a missing one.

/** The schema extractor and merge coordinator of tools/ade_extractor.py (class
    `LandingAISDKExtractor`). The extraction service and the HTML-to-markdown
    converter are oracles given as values; the concurrent fan-out is a left-to-right
    fold over the tasks' outcomes. */
module AdeExtractor {
  import opened Wrappers
  import opened Strings

  // ---------------------------------------------------------------------------
  // Records

  /** The `'10k'` section: twelve financial figures. */
  datatype TenK = TenK(
    revenueCurrent: real, revenuePrior1: real, revenuePrior2: real,
    operatingIncome: real, netIncomeCurrent: real, netIncomePrior1: real,
    totalAssets: real, totalLiabilities: real, shareholdersEquity: real,
    cashEquivalents: real, totalDebt: real, sharesOutstanding: real)
  {
    /** The figure stored under a key of the `'10k'` dictionary. */
    function Value(key: string): real
      requires key in TenKKeys
    {
      if key == "revenue_current" then revenueCurrent
      else if key == "revenue_prior_1" then revenuePrior1
      else if key == "revenue_prior_2" then revenuePrior2
      else if key == "operating_income" then operatingIncome
      else if key == "net_income_current" then netIncomeCurrent
      else if key == "net_income_prior_1" then netIncomePrior1
      else if key == "total_assets" then totalAssets
      else if key == "total_liabilities" then totalLiabilities
      else if key == "shareholders_equity" then shareholdersEquity
      else if key == "cash_equivalents" then cashEquivalents
      else if key == "total_debt" then totalDebt
      else sharesOutstanding
    }
  }

  /** The keys of the `'10k'` dictionary, in the source's order. */
  const TenKKeys: seq<string> := [
    "revenue_current", "revenue_prior_1", "revenue_prior_2", "operating_income",
    "net_income_current", "net_income_prior_1", "total_assets", "total_liabilities",
    "shareholders_equity", "cash_equivalents", "total_debt", "shares_outstanding"]

  /** The fields of the financial extraction schema. */
  const FinancialSchemaFields: set<string> := {
    "revenue_current", "revenue_prior_1", "operating_income", "net_income_current",
    "total_assets", "total_liabilities", "shareholders_equity", "cash_equivalents",
    "total_debt", "shares_outstanding"}

  /** A board member as the extraction (or the demo data) gives it; a key the
      dictionary lacks is `None`. */
  datatype BoardMember = BoardMember(
    name: Option<string>, role: Option<string>, independent: Option<bool>, tenureYears: Option<real>)

  /** The `'proxy'` section. */
  datatype Proxy = Proxy(
    ceoTotalCompCurrent: real, ceoTotalCompPrior1: real, ceoBaseSalary: real,
    ceoBonus: real, ceoStockAwards: real, sayOnPayApprovalPct: real,
    boardSize: real, independentDirectors: real, averageDirectorTenure: real,
    boardMembers: seq<BoardMember>)

  /** A value of the combined result dictionary. */
  datatype Section = TenKData(tenK: TenK) | ProxyData(proxy: Proxy) | EventData(recentEvents: seq<string>)

  const RequiredKeys: set<string> := {"10k", "proxy", "8k"}

  function DefaultTenK(): TenK {
    TenK(0.0, 0.0, 0.0, 0.0, 0.0, 0.0, 0.0, 0.0, 0.0, 0.0, 0.0, 0.0)
  }

  function DefaultProxy(): Proxy {
    Proxy(0.0, 0.0, 0.0, 0.0, 0.0, 0.0, 0.0, 0.0, 0.0, [])
  }

  /** The default record has twelve distinct keys, all 0. */
  lemma DefaultTenKZero()
    ensures |TenKKeys| == 12 && forall i, j :: 0 <= i < j < 12 ==> TenKKeys[i] != TenKKeys[j]
    ensures forall k :: k in TenKKeys ==> DefaultTenK().Value(k) == 0.0
  {
  }

  /** Every numeric field of the default proxy record is 0 and it lists no members. */
  lemma DefaultProxyZero()
    ensures var p := DefaultProxy();
            && p.ceoTotalCompCurrent == p.ceoTotalCompPrior1 == p.ceoBaseSalary == 0.0
            && p.ceoBonus == p.ceoStockAwards == p.sayOnPayApprovalPct == 0.0
            && p.boardSize == p.independentDirectors == p.averageDirectorTenure == 0.0
            && p.boardMembers == []
  {
  }

  // ---------------------------------------------------------------------------
  // Demo data

  function AaplDemo(): map<string, Section> {
    map[
      "10k" := TenKData(TenK(
        383285000000.0, 394328000000.0, 365817000000.0, 114301000000.0,
        96995000000.0, 99803000000.0, 352755000000.0, 290437000000.0,
        62146000000.0, 29965000000.0, 111088000000.0, 15441880000.0)),
      "proxy" := ProxyData(Proxy(
        63209230.0, 99420000.0, 3000000.0, 0.0, 52000000.0, 95.4, 8.0, 7.0, 12.5,
        [BoardMember(Some("Tim Cook"), Some("CEO"), Some(false), Some(12.0))])),
      "8k" := EventData(["Q4 earnings release", "Product announcement"])
    ]
  }

  /** The demo table: AAPL only. */
  function DemoCompanies(): map<string, map<string, Section>> {
    map["AAPL" := AaplDemo()]
  }

  /** `_get_complete_demo_data`: the entry for the current ticker (AAPL when it
      is unset or empty), AAPL's entry for a ticker the table lacks. */
  function DemoData(currentTicker: Option<string>): map<string, Section> {
    var ticker := if currentTicker.Some? && currentTicker.value != "" then currentTicker.value else "AAPL";
    if ticker in DemoCompanies() then DemoCompanies()[ticker] else DemoCompanies()["AAPL"]
  }

  /** Every ticker, known or not, gets AAPL's record, which has all three sections. */
  lemma DemoDataIsAapl(currentTicker: Option<string>)
    ensures DemoData(currentTicker) == AaplDemo()
    ensures RequiredKeys <= DemoData(currentTicker).Keys
    ensures DemoData(currentTicker)["10k"].TenKData?
    ensures DemoData(currentTicker)["10k"].tenK.revenueCurrent == 383285000000.0
  {
  }

  // ---------------------------------------------------------------------------
  // The extraction oracles

  /** The schemas extraction is asked for. */
  datatype Schema = FinancialSchema | GovernanceSchema

  /** What an extraction returns: its numeric fields, and its `board_members`
      list if the key is there. */
  datatype Extraction = Extraction(numbers: map<string, real>, members: Option<seq<BoardMember>>)

  /** The SDK client: the extraction for a (schema, markdown path) request; a
      request it lacks raises. */
  datatype Sdk = Sdk(results: map<(Schema, string), Extraction>)

  /** One document of a filing list; `None` for a missing key. */
  datatype FilingDoc = FilingDoc(path: Option<string>, date: Option<string>)

  /** `extraction.get(key, 0)`. */
  function Get(x: map<string, real>, key: string): real {
    if key in x then x[key] else 0.0
  }

  /** The markdown file `_html_to_markdown` writes: every `.html` replaced by `.md`. */
  function MarkdownPath(htmlPath: string): string {
    ReplaceAll(htmlPath, ".html", ".md")
  }

  /** The file handed to the SDK for the most recent filing: the converted
      markdown for an HTML file (`None` when conversion fails, that is when the
      path is not in `converts`), the path itself otherwise. */
  function ExtractionSource(path: string, converts: set<string>): Option<string> {
    if EndsWith(Lower(path), ".html") then
      if path in converts then Some(MarkdownPath(path)) else None
    else Some(path)
  }

  /** The extraction for the first filing of the list under `schema`, if every
      step succeeds. */
  function ExtractFirst(client: Option<Sdk>, converts: set<string>, filings: seq<FilingDoc>, schema: Schema): Option<Extraction> {
    if filings == [] || client.None? || filings[0].path.None? then None
    else
      var src := ExtractionSource(filings[0].path.value, converts);
      if src.None? || (schema, src.value) !in client.value.results then None
      else Some(client.value.results[(schema, src.value)])
  }

  /** Extraction fails without filings, without a client or without a path on
      the first filing; otherwise it succeeds exactly when the file to hand over
      exists (an HTML file must have been converted) and the client answers the
      request for it, and then it is that answer. */
  lemma ExtractFirstSpec(client: Option<Sdk>, converts: set<string>, filings: seq<FilingDoc>, schema: Schema)
    ensures filings == [] || client.None? || filings[0].path.None? ==>
              ExtractFirst(client, converts, filings, schema).None?
    ensures filings != [] && client.Some? && filings[0].path.Some? ==>
              var path := filings[0].path.value;
              var html := EndsWith(Lower(path), ".html");
              var src := if html then MarkdownPath(path) else path;
              var x := ExtractFirst(client, converts, filings, schema);
              && (x.Some? <==> (!html || path in converts) && (schema, src) in client.value.results)
              && (x.Some? ==> x.value == client.value.results[(schema, src)])
  {
  }

  // ---------------------------------------------------------------------------
  // extract_10k_data

  /** The `'10k'` record built from an extraction. */
  function TenKFromExtraction(x: map<string, real>): TenK {
    TenK(Get(x, "revenue_current"), Get(x, "revenue_prior_1"), 0.0, Get(x, "operating_income"),
         Get(x, "net_income_current"), 0.0, Get(x, "total_assets"), Get(x, "total_liabilities"),
         Get(x, "shareholders_equity"), Get(x, "cash_equivalents"), Get(x, "total_debt"),
         Get(x, "shares_outstanding"))
  }

  /** Each key of the record holds the schema field of the same name, 0 where
      the extraction lacks it; the two keys outside the schema are always 0. */
  lemma TenKFromExtractionSpec(x: map<string, real>, key: string)
    requires key in TenKKeys
    ensures TenKFromExtraction(x).Value(key) == if key in FinancialSchemaFields then Get(x, key) else 0.0
    ensures key !in FinancialSchemaFields <==> key == "revenue_prior_2" || key == "net_income_prior_1"
  {
    if key == "revenue_prior_2" || key == "net_income_prior_1" {
      assert key !in FinancialSchemaFields;
    } else {
      assert key in FinancialSchemaFields;
    }
  }

  /** `extract_10k_data(filings)`: the mapped extraction, the all-zero default when
      there are no filings, no client, no path, a failed conversion or a failed request. */
  function Extract10k(client: Option<Sdk>, converts: set<string>, filings: seq<FilingDoc>): (r: TenK)
    ensures r.revenuePrior2 == 0.0 && r.netIncomePrior1 == 0.0
    ensures filings == [] || client.None? ==> r == DefaultTenK()
    ensures ExtractFirst(client, converts, filings, FinancialSchema).None? ==> r == DefaultTenK()
    ensures ExtractFirst(client, converts, filings, FinancialSchema).Some? ==>
              r == TenKFromExtraction(ExtractFirst(client, converts, filings, FinancialSchema).value.numbers)
  {
    var x := ExtractFirst(client, converts, filings, FinancialSchema);
    if x.None? then DefaultTenK() else TenKFromExtraction(x.value.numbers)
  }

  // ---------------------------------------------------------------------------
  // extract_proxy_data

  /** `m.get('tenure_years', 0)`. */
  function Tenure(m: BoardMember): real {
    m.tenureYears.GetOr(0.0)
  }

  function TenureSum(ms: seq<BoardMember>): real
    decreases |ms|
  {
    if ms == [] then 0.0 else TenureSum(ms[..|ms| - 1]) + Tenure(ms[|ms| - 1])
  }

  /** The average tenure: 0 without members. */
  function MeanTenure(ms: seq<BoardMember>): (r: real)
    ensures ms == [] ==> r == 0.0
    ensures ms != [] ==> r * |ms| as real == TenureSum(ms)
  {
    if ms == [] then 0.0 else TenureSum(ms) / |ms| as real
  }

  lemma {:induction false} TenureSumBounds(ms: seq<BoardMember>, lo: real, hi: real)
    requires forall i :: 0 <= i < |ms| ==> lo <= Tenure(ms[i]) <= hi
    ensures |ms| as real * lo <= TenureSum(ms) <= |ms| as real * hi
    decreases |ms|
  {
    if ms != [] {
      TenureSumBounds(ms[..|ms| - 1], lo, hi);
    }
  }

  /** The average lies between the smallest and the largest tenure. */
  lemma MeanTenureBounds(ms: seq<BoardMember>, lo: real, hi: real)
    requires ms != []
    requires forall i :: 0 <= i < |ms| ==> lo <= Tenure(ms[i]) <= hi
    ensures lo <= MeanTenure(ms) <= hi
  {
    TenureSumBounds(ms, lo, hi);
    var n := |ms| as real;
    var m := MeanTenure(ms);
    assert m * n == TenureSum(ms);
  }

  /** The `'proxy'` record built from an extraction. */
  function ProxyFromExtraction(x: Extraction): Proxy {
    var members := x.members.GetOr([]);
    Proxy(Get(x.numbers, "ceo_total_comp"), 0.0, Get(x.numbers, "ceo_base_salary"), 0.0, 0.0,
          Get(x.numbers, "say_on_pay_approval_pct"), Get(x.numbers, "board_size"),
          Get(x.numbers, "independent_directors"), MeanTenure(members), members)
  }

  /** The six governance fields are copied (0 where the extraction lacks one),
      the members are the extraction's list (none without the key) and the
      average tenure is their mean; the other three figures are 0. An empty
      extraction gives the default record. */
  lemma ProxyFromExtractionSpec(x: Extraction)
    ensures var r := ProxyFromExtraction(x);
            && r.ceoTotalCompCurrent == Get(x.numbers, "ceo_total_comp")
            && r.ceoBaseSalary == Get(x.numbers, "ceo_base_salary")
            && r.sayOnPayApprovalPct == Get(x.numbers, "say_on_pay_approval_pct")
            && r.boardSize == Get(x.numbers, "board_size")
            && r.independentDirectors == Get(x.numbers, "independent_directors")
            && r.ceoTotalCompPrior1 == 0.0 && r.ceoBonus == 0.0 && r.ceoStockAwards == 0.0
            && r.boardMembers == x.members.GetOr([])
            && r.averageDirectorTenure == MeanTenure(x.members.GetOr([]))
    ensures x.numbers == map[] && (x.members.None? || x.members == Some([])) ==> ProxyFromExtraction(x) == DefaultProxy()
  {
  }

  /** An empty extraction gives the all-zero 10-K record. */
  lemma EmptyTenKIsDefault()
    ensures TenKFromExtraction(map[]) == DefaultTenK()
  {
  }

  /** `extract_proxy_data(filings)`: the mapped extraction or the default. The
      average tenure is the mean of the listed members' tenures; the prior-year
      compensation, bonus and stock awards are always 0. */
  function ExtractProxy(client: Option<Sdk>, converts: set<string>, filings: seq<FilingDoc>): (r: Proxy)
    ensures r.ceoTotalCompPrior1 == 0.0 && r.ceoBonus == 0.0 && r.ceoStockAwards == 0.0
    ensures r.boardMembers == [] ==> r.averageDirectorTenure == 0.0
    ensures r.boardMembers != [] ==> r.averageDirectorTenure * |r.boardMembers| as real == TenureSum(r.boardMembers)
    ensures filings == [] || client.None? ==> r == DefaultProxy()
    ensures ExtractFirst(client, converts, filings, GovernanceSchema).None? ==> r == DefaultProxy()
    ensures ExtractFirst(client, converts, filings, GovernanceSchema).Some? ==>
              r == ProxyFromExtraction(ExtractFirst(client, converts, filings, GovernanceSchema).value)
  {
    var x := ExtractFirst(client, converts, filings, GovernanceSchema);
    if x.None? then DefaultProxy() else ProxyFromExtraction(x.value)
  }

  // ---------------------------------------------------------------------------
  // extract_8k_data

  function EventLabel(f: FilingDoc): string {
    "Material event on " + f.date.GetOr("unknown date")
  }

  /** The 8-K events of the first three filings, in order. */
  function Events(filings: seq<FilingDoc>): (events: seq<string>)
    ensures |events| == if |filings| < 3 then |filings| else 3
    ensures forall i :: 0 <= i < |events| ==> events[i] == EventLabel(filings[i])
  {
    if filings == [] || |filings| > 3 then
      if filings == [] then [] else Events(filings[..3])
    else Events(filings[..|filings| - 1]) + [EventLabel(filings[|filings| - 1])]
  }

  /** `extract_8k_data(filings)`: one label per filing for the first three. */
  method Extract8kData(filings: seq<FilingDoc>) returns (result: map<string, Section>)
    ensures result.Keys == {"8k"} && result["8k"].EventData?
    ensures |result["8k"].recentEvents| == if |filings| < 3 then |filings| else 3
    ensures forall i :: 0 <= i < |result["8k"].recentEvents| ==>
              result["8k"].recentEvents[i] == "Material event on " + filings[i].date.GetOr("unknown date")
  {
    var events: seq<string> := [];
    var n := if |filings| < 3 then |filings| else 3;
    var i := 0;
    while i < n
      invariant 0 <= i <= n
      invariant |events| == i
      invariant forall k :: 0 <= k < i ==> events[k] == EventLabel(filings[k])
    {
      events := events + ["Material event on " + filings[i].date.GetOr("unknown date")];
      i := i + 1;
    }
    result := map["8k" := EventData(events)];
  }

  // ---------------------------------------------------------------------------
  // _ensure_required_fields

  /** The missing required keys get their defaults; everything else is kept. */
  function EnsureRequiredFields(data: map<string, Section>): (r: map<string, Section>)
    ensures r.Keys == data.Keys + RequiredKeys
    ensures forall k :: k in data ==> r[k] == data[k]
    ensures "10k" !in data ==> r["10k"] == TenKData(DefaultTenK())
    ensures "proxy" !in data ==> r["proxy"] == ProxyData(DefaultProxy())
    ensures "8k" !in data ==> r["8k"] == EventData([])
  {
    var a := if "10k" in data then data else data["10k" := TenKData(DefaultTenK())];
    var b := if "proxy" in a then a else a["proxy" := ProxyData(DefaultProxy())];
    if "8k" in b then b else b["8k" := EventData([])]
  }

  // ---------------------------------------------------------------------------
  // Ticker inference: re.search(r'([A-Z]+)_', basename)

  /** Where the run of upper-case letters starting at `i` ends. */
  function RunEnd(s: string, i: nat): (j: nat)
    requires i <= |s|
    ensures i <= j <= |s|
    ensures forall k :: i <= k < j ==> IsUpperLetter(s[k])
    ensures j < |s| ==> !IsUpperLetter(s[j])
    decreases |s| - i
  {
    if i < |s| && IsUpperLetter(s[i]) then RunEnd(s, i + 1) else i
  }

  /** The pattern matches at `i`: a non-empty upper-case run followed by `_`. */
  predicate MatchesAt(s: string, i: nat) {
    i < |s| && IsUpperLetter(s[i]) && RunEnd(s, i) < |s| && s[RunEnd(s, i)] == '_'
  }

  /** The leftmost position from `from` on where the pattern matches. */
  function LeftmostMatch(s: string, from: nat): (r: Option<nat>)
    ensures r.None? <==> forall i :: from <= i < |s| ==> !MatchesAt(s, i)
    ensures r.Some? ==> from <= r.value < |s| && MatchesAt(s, r.value)
    ensures r.Some? ==> forall i :: from <= i < r.value ==> !MatchesAt(s, i)
    decreases |s| - from
  {
    if from >= |s| then None
    else if MatchesAt(s, from) then Some(from)
    else LeftmostMatch(s, from + 1)
  }

  /** Group 1 of the search. */
  function TickerMatch(s: string): Option<string> {
    var i := LeftmostMatch(s, 0);
    if i.None? then None else Some(s[i.value..RunEnd(s, i.value)])
  }

  lemma RunEndShared(s: string, i: nat)
    requires 0 < i <= |s| && IsUpperLetter(s[i - 1])
    ensures RunEnd(s, i - 1) == RunEnd(s, i)
  {
  }

  /** The match is a maximal upper-case run directly followed by `_`, and no
      earlier position starts one. */
  lemma TickerMatchSpec(s: string)
    ensures TickerMatch(s).None? <==> forall i :: 0 <= i < |s| ==> !MatchesAt(s, i)
    ensures TickerMatch(s).Some? ==>
              var i := LeftmostMatch(s, 0).value;
              var t := TickerMatch(s).value;
              && |t| > 0 && (forall c :: c in t ==> IsUpperLetter(c))
              && i + |t| < |s| && s[i..i + |t|] == t && s[i + |t|] == '_'
              && (i == 0 || !IsUpperLetter(s[i - 1]))
  {
    var r := LeftmostMatch(s, 0);
    if r.Some? {
      var i := r.value;
      if i > 0 && IsUpperLetter(s[i - 1]) {
        RunEndShared(s, i);
        assert MatchesAt(s, i - 1);
        assert false;
      }
      assert |TickerMatch(s).value| == RunEnd(s, i) - i;
    }
  }

  /** `self.current_ticker` after the scan of `process_all_documents`: the first
      category with documents decides; its first path's basename is searched,
      and the ticker is kept when nothing matches. */
  function InferTicker(filings: seq<(string, seq<FilingDoc>)>, current: Option<string>): Option<string> {
    if filings == [] then current
    else if filings[0].1 != [] then
      var m := TickerMatch(Basename(filings[0].1[0].path.GetOr("")));
      if m.Some? then m else current
    else InferTicker(filings[1..], current)
  }

  /** Only the first non-empty category is looked at. */
  lemma {:induction false} InferTickerFirst(filings: seq<(string, seq<FilingDoc>)>, current: Option<string>, k: nat)
    requires k < |filings| && filings[k].1 != []
    requires forall j :: 0 <= j < k ==> filings[j].1 == []
    ensures InferTicker(filings, current) ==
            var m := TickerMatch(Basename(filings[k].1[0].path.GetOr("")));
            if m.Some? then m else current
  {
    if k > 0 {
      assert forall j :: 0 <= j < k - 1 ==> filings[1..][j] == filings[j + 1];
      InferTickerFirst(filings[1..], current, k - 1);
    }
  }

  /** Without documents the ticker is unchanged. */
  lemma {:induction false} InferTickerNone(filings: seq<(string, seq<FilingDoc>)>, current: Option<string>)
    requires forall j :: 0 <= j < |filings| ==> filings[j].1 == []
    ensures InferTicker(filings, current) == current
  {
    if filings != [] {
      assert forall j :: 0 <= j < |filings| - 1 ==> filings[1..][j] == filings[j + 1];
      InferTickerNone(filings[1..], current);
    }
  }

  // ---------------------------------------------------------------------------
  // The merge

  /** One awaited task: the dictionary it returned, or the exception it raised. */
  datatype TaskOutcome = Completed(result: map<string, Section>) | Raised

  predicate Provides(o: TaskOutcome, key: string) {
    o.Completed? && key in o.result
  }

  /** `combined.update(result)` for each dictionary result in order. */
  function Combine(outcomes: seq<TaskOutcome>): map<string, Section>
    decreases |outcomes|
  {
    if outcomes == [] then map[]
    else
      var c := Combine(outcomes[..|outcomes| - 1]);
      var o := outcomes[|outcomes| - 1];
      if o.Completed? then c + o.result else c
  }

  /** Folding two lists of outcomes one after the other. */
  lemma {:induction false} CombineConcat(xs: seq<TaskOutcome>, ys: seq<TaskOutcome>)
    ensures Combine(xs + ys) == Combine(xs) + Combine(ys)
    decreases |ys|
  {
    if ys == [] {
      assert xs + ys == xs;
      assert Combine(xs) + map[] == Combine(xs);
    } else {
      var init := ys[..|ys| - 1];
      assert (xs + ys)[..|xs + ys| - 1] == xs + init;
      assert (xs + ys)[|xs + ys| - 1] == ys[|ys| - 1];
      CombineConcat(xs, init);
      var o := ys[|ys| - 1];
      if o.Completed? {
        var a, b := Combine(xs), Combine(init);
        assert (a + b) + o.result == a + (b + o.result);
      }
    }
  }

  lemma CombineOne(m: map<string, Section>)
    ensures Combine([Completed(m)]) == m
  {
    assert [Completed(m)][..0] == [];
    assert map[] + m == m;
  }

  /** The last task that provides `key`. */
  function LastProvider(outcomes: seq<TaskOutcome>, key: string): (r: Option<nat>)
    ensures r.None? <==> forall i :: 0 <= i < |outcomes| ==> !Provides(outcomes[i], key)
    ensures r.Some? ==> r.value < |outcomes| && Provides(outcomes[r.value], key)
    ensures r.Some? ==> forall i :: r.value < i < |outcomes| ==> !Provides(outcomes[i], key)
    decreases |outcomes|
  {
    if outcomes == [] then None
    else if Provides(outcomes[|outcomes| - 1], key) then Some(|outcomes| - 1)
    else
      var r := LastProvider(outcomes[..|outcomes| - 1], key);
      assert forall i :: 0 <= i < |outcomes| - 1 ==> outcomes[..|outcomes| - 1][i] == outcomes[i];
      r
  }

  /** A key of the combined result holds the value of the last task that gave it;
      raised tasks contribute nothing. */
  lemma {:induction false} CombineAt(outcomes: seq<TaskOutcome>, key: string)
    ensures key in Combine(outcomes) <==> LastProvider(outcomes, key).Some?
    ensures LastProvider(outcomes, key).Some? ==>
              Combine(outcomes)[key] == outcomes[LastProvider(outcomes, key).value].result[key]
    decreases |outcomes|
  {
    if outcomes != [] && !Provides(outcomes[|outcomes| - 1], key) {
      CombineAt(outcomes[..|outcomes| - 1], key);
    }
  }

  /** A raised task next to a completed one: the completed one's result survives. */
  lemma RaisedTaskSkipped(m: map<string, Section>)
    ensures EnsureRequiredFields(Combine([Raised, Completed(m)])) == EnsureRequiredFields(m)
    ensures EnsureRequiredFields(Combine([Completed(m), Raised])) == EnsureRequiredFields(m)
  {
    assert [Raised, Completed(m)][..1] == [Raised];
    assert [Completed(m), Raised][..1] == [Completed(m)];
    assert [Raised][..0] == [] && [Completed(m)][..0] == [];
    assert Combine([Raised]) == map[];
    assert Combine([Completed(m)]) == m by { assert map[] + m == m; }
  }

  /** `key in filings and filings[key]`: the documents of a category, if any. */
  function Lookup(filings: seq<(string, seq<FilingDoc>)>, key: string): seq<FilingDoc> {
    if filings == [] then []
    else if filings[0].0 == key then filings[0].1
    else Lookup(filings[1..], key)
  }

  /** The tasks of `process_all_documents`, in the order 10-K, DEF 14A, 8-K, one
      per category with documents; every extractor catches its own errors, so
      every task completes. */
  function Tasks(client: Option<Sdk>, converts: set<string>, filings: seq<(string, seq<FilingDoc>)>): seq<TaskOutcome> {
    var tenK := Lookup(filings, "10-K");
    var proxy := Lookup(filings, "DEF 14A");
    var eightK := Lookup(filings, "8-K");
    TaskOf(tenK, "10k", TenKData(Extract10k(client, converts, tenK)))
    + TaskOf(proxy, "proxy", ProxyData(ExtractProxy(client, converts, proxy)))
    + TaskOf(eightK, "8k", EventData(Events(eightK)))
  }

  /** The task of one category: present when it has documents. */
  function TaskOf(docs: seq<FilingDoc>, key: string, s: Section): seq<TaskOutcome> {
    if docs != [] then [Completed(map[key := s])] else []
  }

  /** What one category contributes to the combined dictionary. */
  function Part(docs: seq<FilingDoc>, key: string, s: Section): map<string, Section> {
    if docs != [] then map[key := s] else map[]
  }

  lemma CombineTasks(client: Option<Sdk>, converts: set<string>, filings: seq<(string, seq<FilingDoc>)>)
    ensures var tenK, proxy, eightK := Lookup(filings, "10-K"), Lookup(filings, "DEF 14A"), Lookup(filings, "8-K");
            Combine(Tasks(client, converts, filings)) ==
              Part(tenK, "10k", TenKData(Extract10k(client, converts, tenK)))
              + Part(proxy, "proxy", ProxyData(ExtractProxy(client, converts, proxy)))
              + Part(eightK, "8k", EventData(Events(eightK)))
  {
    var tenK, proxy, eightK := Lookup(filings, "10-K"), Lookup(filings, "DEF 14A"), Lookup(filings, "8-K");
    var a := TaskOf(tenK, "10k", TenKData(Extract10k(client, converts, tenK)));
    var b := TaskOf(proxy, "proxy", ProxyData(ExtractProxy(client, converts, proxy)));
    var e := TaskOf(eightK, "8k", EventData(Events(eightK)));
    CombineConcat(a + b, e);
    CombineConcat(a, b);
    if tenK != [] { CombineOne(a[0].result); } else { assert Combine(a) == map[]; }
    if proxy != [] { CombineOne(b[0].result); } else { assert Combine(b) == map[]; }
    if eightK != [] { CombineOne(e[0].result); } else { assert Combine(e) == map[]; }
  }

  /** Filling in the required keys after the three parts: each section is its
      category's value, which for a category without documents is the default. */
  lemma FillParts(a: seq<FilingDoc>, b: seq<FilingDoc>, e: seq<FilingDoc>, x: TenK, p: Proxy, ev: seq<string>)
    requires a == [] ==> x == DefaultTenK()
    requires b == [] ==> p == DefaultProxy()
    requires e == [] ==> ev == []
    ensures var r := EnsureRequiredFields(Part(a, "10k", TenKData(x)) + Part(b, "proxy", ProxyData(p)) + Part(e, "8k", EventData(ev)));
            r.Keys == RequiredKeys && r["10k"] == TenKData(x) && r["proxy"] == ProxyData(p) && r["8k"] == EventData(ev)
  {
  }

  /** What `process_all_documents` returns once the ticker is inferred. */
  function ProcessAll(client: Option<Sdk>, converts: set<string>, filings: seq<(string, seq<FilingDoc>)>,
                      ticker: Option<string>): map<string, Section>
  {
    if client.None? then DemoData(ticker)
    else
      var tasks := Tasks(client, converts, filings);
      if tasks == [] then DemoData(ticker) else EnsureRequiredFields(Combine(tasks))
  }

  /** All three sections are always present; without a client, or without any
      documents of the three kinds, the result is AAPL's demo data. */
  lemma ProcessAllKeys(client: Option<Sdk>, converts: set<string>, filings: seq<(string, seq<FilingDoc>)>,
                       ticker: Option<string>)
    ensures RequiredKeys <= ProcessAll(client, converts, filings, ticker).Keys
    ensures client.None? ==> ProcessAll(client, converts, filings, ticker) == AaplDemo()
    ensures Lookup(filings, "10-K") == [] && Lookup(filings, "DEF 14A") == [] && Lookup(filings, "8-K") == [] ==>
              ProcessAll(client, converts, filings, ticker) == AaplDemo()
  {
    DemoDataIsAapl(ticker);
  }

  /** With a client and some documents, each section is the extraction of its
      own category, or the default when that category has no documents. */
  lemma ProcessAllSections(sdk: Sdk, converts: set<string>, filings: seq<(string, seq<FilingDoc>)>,
                           ticker: Option<string>)
    requires Lookup(filings, "10-K") != [] || Lookup(filings, "DEF 14A") != [] || Lookup(filings, "8-K") != []
    ensures var r := ProcessAll(Some(sdk), converts, filings, ticker);
            && r.Keys == RequiredKeys
            && r["10k"] == TenKData(Extract10k(Some(sdk), converts, Lookup(filings, "10-K")))
            && r["proxy"] == ProxyData(ExtractProxy(Some(sdk), converts, Lookup(filings, "DEF 14A")))
            && r["8k"] == EventData(Events(Lookup(filings, "8-K")))
  {
    var client := Some(sdk);
    var tenK, proxy, eightK := Lookup(filings, "10-K"), Lookup(filings, "DEF 14A"), Lookup(filings, "8-K");
    assert Tasks(client, converts, filings) != [];
    CombineTasks(client, converts, filings);
    FillParts(tenK, proxy, eightK, Extract10k(client, converts, tenK), ExtractProxy(client, converts, proxy), Events(eightK));
  }

  /** The loop over the gathered results: dictionaries are merged in order,
      exceptions skipped. */
  method Gather(tasks: seq<TaskOutcome>) returns (combined: map<string, Section>)
    ensures forall key :: key in combined <==> LastProvider(tasks, key).Some?
    ensures forall key :: key in combined ==> combined[key] == tasks[LastProvider(tasks, key).value].result[key]
    ensures combined == Combine(tasks)
  {
    combined := map[];
    var j := 0;
    while j < |tasks|
      invariant 0 <= j <= |tasks|
      invariant combined == Combine(tasks[..j])
    {
      assert tasks[..j + 1][..j] == tasks[..j];
      if tasks[j].Completed? {
        combined := combined + tasks[j].result;
      }
      j := j + 1;
    }
    assert tasks[..|tasks|] == tasks;
    forall key ensures (key in combined <==> LastProvider(tasks, key).Some?)
                 && (key in combined ==> combined[key] == tasks[LastProvider(tasks, key).value].result[key]) {
      CombineAt(tasks, key);
    }
  }

  // ---------------------------------------------------------------------------

  class Extractor {
    const client: Option<Sdk>
    var currentTicker: Option<string>

    /** A client exists only when an API key is given and the SDK could be set
        up (`sdk` is `None` when importing or constructing it fails). */
    constructor (apiKey: Option<string>, sdk: Option<Sdk>)
      ensures client == (if apiKey.Some? && apiKey.value != "" then sdk else None)
      ensures currentTicker.None?
    {
      client := if apiKey.Some? && apiKey.value != "" then sdk else None;
      currentTicker := None;
    }

    /** The scan at the start of `process_all_documents`. */
    method InferCurrentTicker(filings: seq<(string, seq<FilingDoc>)>)
      modifies this`currentTicker
      ensures currentTicker == InferTicker(filings, old(currentTicker))
    {
      var i := 0;
      while i < |filings|
        invariant 0 <= i <= |filings|
        invariant currentTicker == old(currentTicker)
        invariant InferTicker(filings[i..], currentTicker) == InferTicker(filings, old(currentTicker))
      {
        assert filings[i..][0] == filings[i];
        var docs := filings[i].1;
        if docs != [] {
          var m := TickerMatch(Basename(docs[0].path.GetOr("")));
          if m.Some? {
            currentTicker := m;
          }
          return;
        }
        assert filings[i..][1..] == filings[i + 1..];
        i := i + 1;
      }
    }

    /** The task list, built in the order 10-K, DEF 14A, 8-K. */
    method CollectTasks(filings: seq<(string, seq<FilingDoc>)>, converts: set<string>)
      returns (tasks: seq<TaskOutcome>)
      ensures tasks == Tasks(client, converts, filings)
    {
      tasks := [];
      var tenK := Lookup(filings, "10-K");
      if tenK != [] {
        tasks := tasks + [Completed(map["10k" := TenKData(Extract10k(client, converts, tenK))])];
      }
      ghost var a := TaskOf(tenK, "10k", TenKData(Extract10k(client, converts, tenK)));
      assert tasks == a;
      var proxy := Lookup(filings, "DEF 14A");
      if proxy != [] {
        tasks := tasks + [Completed(map["proxy" := ProxyData(ExtractProxy(client, converts, proxy))])];
      }
      ghost var b := TaskOf(proxy, "proxy", ProxyData(ExtractProxy(client, converts, proxy)));
      assert tasks == a + b;
      var eightK := Lookup(filings, "8-K");
      if eightK != [] {
        var r := Extract8kData(eightK);
        assert r["8k"].recentEvents == Events(eightK);
        assert r == map["8k" := EventData(Events(eightK))];
        tasks := tasks + [Completed(r)];
      }
      assert tasks == a + b + TaskOf(eightK, "8k", EventData(Events(eightK)));
    }

    /** `process_all_documents(filings)`; `converts` says which HTML files the
        markdown conversion succeeds on. */
    method ProcessAllDocuments(filings: seq<(string, seq<FilingDoc>)>, converts: set<string>)
      returns (combined: map<string, Section>)
      modifies this`currentTicker
      ensures currentTicker == InferTicker(filings, old(currentTicker))
      ensures combined == ProcessAll(client, converts, filings, currentTicker)
    {
      InferCurrentTicker(filings);
      if client.None? {
        return DemoData(currentTicker);
      }
      var tasks := CollectTasks(filings, converts);
      assert ProcessAll(client, converts, filings, currentTicker) ==
        if tasks == [] then DemoData(currentTicker) else EnsureRequiredFields(Combine(tasks));
      if tasks == [] {
        return DemoData(currentTicker);
      }
      combined := Gather(tasks);
      combined := EnsureRequiredFields(combined);
    }
  }
}

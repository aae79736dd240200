/** The peer comparator of tools/peer_comparator.py: percentile ranks, median
    gaps, the guarded performance score and the piecewise upside rule against a
    fixed peer table. Figures are reals; floating-point rounding is not modelled. */
module PeerComparator {

  datatype Peer = Peer(ticker: string, roe: real, roic: real, margin: real)

  /** The `PeerComparison` record. */
  datatype PeerComparison = PeerComparison(
    targetTicker: string,
    peerGroup: seq<string>,
    roePercentile: real,
    roicPercentile: real,
    marginPercentile: real,
    roeGap: real,
    roicGap: real,
    marginGap: real,
    upsideToPeerMedian: real,
    impliedMarketCapAtPeerMedian: real)

  const TechnologyPeers: seq<Peer> := [
    Peer("AAPL", 147.0, 45.0, 30.0),
    Peer("MSFT", 38.0, 28.0, 42.0),
    Peer("GOOGL", 26.0, 22.0, 27.0),
    Peer("AMZN", 12.0, 8.0, 8.0),
    Peer("META", 31.0, 25.0, 35.0),
    Peer("TSLA", 19.0, 15.0, 19.0),
    Peer("NFLX", 22.0, 18.0, 21.0)]

  /** The hard-coded peer database, by industry. */
  function PeerDatabase(): map<string, seq<Peer>> {
    map["technology" := TechnologyPeers]
  }

  /** The peers of an industry; the technology list for an unknown one. */
  function PeersOf(industry: string): seq<Peer> {
    if industry in PeerDatabase() then PeerDatabase()[industry] else PeerDatabase()["technology"]
  }

  /** The peers other than the target, in their original order. */
  function Others(peers: seq<Peer>, ticker: string): (r: seq<Peer>)
    ensures |r| <= |peers|
  {
    if peers == [] then []
    else (if peers[0].ticker != ticker then [peers[0]] else []) + Others(peers[1..], ticker)
  }

  /** A peer is in the group exactly when it is in the list and is not the target. */
  lemma {:induction false} OthersMembers(peers: seq<Peer>, ticker: string)
    ensures forall p :: p in Others(peers, ticker) <==> p in peers && p.ticker != ticker
  {
    if peers != [] {
      OthersMembers(peers[1..], ticker);
      assert peers == [peers[0]] + peers[1..];
    }
  }

  function Tickers(ps: seq<Peer>): seq<string> {
    seq(|ps|, i requires 0 <= i < |ps| => ps[i].ticker)
  }

  function Roes(ps: seq<Peer>): seq<real> {
    seq(|ps|, i requires 0 <= i < |ps| => ps[i].roe)
  }

  function Roics(ps: seq<Peer>): seq<real> {
    seq(|ps|, i requires 0 <= i < |ps| => ps[i].roic)
  }

  function Margins(ps: seq<Peer>): seq<real> {
    seq(|ps|, i requires 0 <= i < |ps| => ps[i].margin)
  }

  /** `x` occurs in `peers` before `y`. */
  predicate Before(peers: seq<Peer>, x: Peer, y: Peer) {
    exists a, b :: 0 <= a < b < |peers| && peers[a] == x && peers[b] == y
  }

  lemma BeforeCons(p: Peer, rest: seq<Peer>, x: Peer, y: Peer)
    requires Before(rest, x, y)
    ensures Before([p] + rest, x, y)
  {
    var a, b :| 0 <= a < b < |rest| && rest[a] == x && rest[b] == y;
    assert ([p] + rest)[a + 1] == x && ([p] + rest)[b + 1] == y;
  }

  lemma BeforeHead(p: Peer, rest: seq<Peer>, y: Peer)
    requires y in rest
    ensures Before([p] + rest, p, y)
  {
    var b :| 0 <= b < |rest| && rest[b] == y;
    assert ([p] + rest)[0] == p && ([p] + rest)[b + 1] == y;
  }

  /** `Others` keeps the relative order: it is the input with some peers removed. */
  lemma {:induction false} OthersOrder(peers: seq<Peer>, ticker: string, i: nat, j: nat)
    requires i < j < |Others(peers, ticker)|
    ensures Before(peers, Others(peers, ticker)[i], Others(peers, ticker)[j])
  {
    var r := Others(peers, ticker);
    var rest := Others(peers[1..], ticker);
    assert peers == [peers[0]] + peers[1..];
    if peers[0].ticker != ticker {
      assert r == [peers[0]] + rest;
      if i == 0 {
        assert r[j] == rest[j - 1] && r[j] in rest;
        OthersMembers(peers[1..], ticker);
        BeforeHead(peers[0], peers[1..], r[j]);
      } else {
        OthersOrder(peers[1..], ticker, i - 1, j - 1);
        assert r[i] == rest[i - 1] && r[j] == rest[j - 1];
        BeforeCons(peers[0], peers[1..], r[i], r[j]);
      }
    } else {
      assert r == rest;
      OthersOrder(peers[1..], ticker, i, j);
      BeforeCons(peers[0], peers[1..], r[i], r[j]);
    }
  }

  // ---------------------------------------------------------------------------
  // statistics.median

  predicate SortedAsc(s: seq<real>) {
    forall i, j :: 0 <= i < j < |s| ==> s[i] <= s[j]
  }

  function InsertAsc(x: real, s: seq<real>): (r: seq<real>)
    ensures multiset(r) == multiset(s) + multiset{x} && |r| == |s| + 1
    ensures forall y :: y in r <==> y == x || y in s
  {
    if s == [] || x <= s[0] then [x] + s
    else
      var r := [s[0]] + InsertAsc(x, s[1..]);
      assert s == [s[0]] + s[1..];
      r
  }

  /** A value no greater than every value of a sorted list can head it. */
  lemma SortedAscCons(y: real, s: seq<real>)
    requires SortedAsc(s) && forall k :: 0 <= k < |s| ==> y <= s[k]
    ensures SortedAsc([y] + s)
  {
    var r := [y] + s;
    forall i, j | 0 <= i < j < |r| ensures r[i] <= r[j] {
      assert r[j] == s[j - 1];
      if i > 0 { assert r[i] == s[i - 1]; }
    }
  }

  lemma {:induction false} InsertAscSorted(x: real, s: seq<real>)
    requires SortedAsc(s)
    ensures SortedAsc(InsertAsc(x, s))
  {
    if s == [] {
    } else if x <= s[0] {
      SortedAscCons(x, s);
    } else {
      var t := InsertAsc(x, s[1..]);
      assert InsertAsc(x, s) == [s[0]] + t;
      InsertAscSorted(x, s[1..]);
      forall k | 0 <= k < |t| ensures s[0] <= t[k] {
        assert t[k] in t;
        if t[k] != x {
          var m :| 0 <= m < |s[1..]| && s[1..][m] == t[k];
          assert s[m + 1] == t[k];
        }
      }
      SortedAscCons(s[0], t);
    }
  }

  /** `sorted(xs)`: ascending and a permutation of the input. */
  function SortAsc(s: seq<real>): (r: seq<real>)
    ensures SortedAsc(r) && multiset(r) == multiset(s) && |r| == |s|
  {
    if s == [] then []
    else
      assert s == [s[0]] + s[1..];
      InsertAscSorted(s[0], SortAsc(s[1..]));
      InsertAsc(s[0], SortAsc(s[1..]))
  }

  /** Two sorted sequences with the same values start with the same one. */
  lemma SortedSameHead(s: seq<real>, t: seq<real>)
    requires SortedAsc(s) && SortedAsc(t) && multiset(s) == multiset(t) && s != []
    ensures t != [] && s[0] == t[0]
  {
    assert s[0] in multiset(t);
    var k :| 0 <= k < |t| && t[k] == s[0];
    assert t[0] in multiset(s);
    var m :| 0 <= m < |s| && s[m] == t[0];
  }

  lemma TailMultiset(s: seq<real>)
    requires s != []
    ensures multiset(s[1..]) == multiset(s) - multiset{s[0]}
  {
    assert s == [s[0]] + s[1..];
  }

  /** A sorted permutation is unique. */
  lemma {:induction false} SortedUnique(s: seq<real>, t: seq<real>)
    requires SortedAsc(s) && SortedAsc(t) && multiset(s) == multiset(t)
    ensures s == t
  {
    if s == [] {
      assert |t| == |multiset(t)| == 0;
    } else {
      SortedSameHead(s, t);
      TailMultiset(s);
      TailMultiset(t);
      SortedUnique(s[1..], t[1..]);
      assert s == [s[0]] + s[1..] && t == [t[0]] + t[1..];
    }
  }

  /** `statistics.median(xs)`: the middle of the sorted values, or the mean of
      the two middle ones for an even count. */
  function Median(xs: seq<real>): real
    requires xs != []
  {
    var s := SortAsc(xs);
    var n := |s|;
    if n % 2 == 1 then s[n / 2] else (s[n / 2 - 1] + s[n / 2]) / 2.0
  }

  /** `statistics.median(xs) if xs else 0`. */
  function PeerMedian(xs: seq<real>): real {
    if xs == [] then 0.0 else Median(xs)
  }

  /** The median lies within any bounds of the values. */
  lemma MedianBounds(xs: seq<real>, lo: real, hi: real)
    requires xs != []
    requires forall i :: 0 <= i < |xs| ==> lo <= xs[i] <= hi
    ensures lo <= Median(xs) <= hi
  {
    var s := SortAsc(xs);
    forall i | 0 <= i < |s| ensures lo <= s[i] <= hi {
      assert s[i] in multiset(xs);
    }
  }

  /** Any sorted permutation of the values is what `sorted` returns. */
  lemma SortAscOf(xs: seq<real>, s: seq<real>)
    requires SortedAsc(s) && multiset(s) == multiset(xs)
    ensures SortAsc(xs) == s
  {
    SortedUnique(SortAsc(xs), s);
  }

  /** The median depends only on the values, not on their order. */
  lemma MedianPermutation(xs: seq<real>, ys: seq<real>)
    requires xs != [] && multiset(xs) == multiset(ys)
    ensures ys != [] && Median(xs) == Median(ys)
  {
    assert |ys| == |multiset(ys)| && |xs| == |multiset(xs)|;
    var s, t := SortAsc(xs), SortAsc(ys);
    SortedUnique(s, t);
    var n := |s|;
    assert Median(xs) == if n % 2 == 1 then s[n / 2] else (s[n / 2 - 1] + s[n / 2]) / 2.0;
    assert Median(ys) == if n % 2 == 1 then t[n / 2] else (t[n / 2 - 1] + t[n / 2]) / 2.0;
  }

  // ---------------------------------------------------------------------------
  // _calc_percentile

  /** How many values are strictly below `v`. */
  function CountBelow(xs: seq<real>, v: real): (n: nat)
    ensures n <= |xs|
  {
    if xs == [] then 0 else (if xs[0] < v then 1 else 0) + CountBelow(xs[1..], v)
  }

  /** `_calc_percentile(value, peer_values)`. */
  function Percentile(v: real, xs: seq<real>): (r: real)
    ensures 0.0 <= r <= 100.0
    ensures xs == [] ==> r == 50.0
    ensures xs != [] ==> r * |xs| as real == 100.0 * CountBelow(xs, v) as real
  {
    if xs == [] then 50.0 else (CountBelow(xs, v) as real / |xs| as real) * 100.0
  }

  lemma {:induction false} CountBelowMonotone(xs: seq<real>, v: real, w: real)
    requires v <= w
    ensures CountBelow(xs, v) <= CountBelow(xs, w)
  {
    if xs != [] {
      CountBelowMonotone(xs[1..], v, w);
    }
  }

  lemma {:induction false} CountBelowExtremes(xs: seq<real>, v: real)
    ensures (forall i :: 0 <= i < |xs| ==> xs[i] < v) ==> CountBelow(xs, v) == |xs|
    ensures (forall i :: 0 <= i < |xs| ==> v <= xs[i]) ==> CountBelow(xs, v) == 0
  {
    if xs != [] {
      assert forall i :: 0 <= i < |xs| - 1 ==> xs[1..][i] == xs[i + 1];
      CountBelowExtremes(xs[1..], v);
    }
  }

  lemma DivMonotone(a: real, b: real, n: real)
    requires a <= b && n > 0.0
    ensures a / n <= b / n
  {
    assert b / n - a / n == (b - a) / n;
  }

  /** A larger value never ranks lower; above every peer is the 100th
      percentile, at or below every peer the 0th. */
  lemma PercentileRank(xs: seq<real>, v: real, w: real)
    requires xs != [] && v <= w
    ensures Percentile(v, xs) <= Percentile(w, xs)
    ensures (forall i :: 0 <= i < |xs| ==> xs[i] < v) ==> Percentile(v, xs) == 100.0
    ensures (forall i :: 0 <= i < |xs| ==> v <= xs[i]) ==> Percentile(v, xs) == 0.0
  {
    CountBelowMonotone(xs, v, w);
    CountBelowExtremes(xs, v);
    DivMonotone(CountBelow(xs, v) as real, CountBelow(xs, w) as real, |xs| as real);
  }

  // ---------------------------------------------------------------------------
  // Score and upside

  /** `max(median, 1)`: at least 1, so the score never divides by zero. */
  function Guard(median: real): (d: real)
    ensures d >= 1.0 && d >= median
    ensures median >= 1.0 ==> d == median
  {
    if median > 1.0 then median else 1.0
  }

  /** The weighted performance relative to the peer medians. */
  function PerformanceScore(roe: real, roic: real, margin: real, roeMedian: real, roicMedian: real, marginMedian: real): real {
    (roe / Guard(roeMedian)) * 0.4 + (roic / Guard(roicMedian)) * 0.3 + (margin / Guard(marginMedian)) * 0.3
  }

  /** The piecewise upside rule. */
  function Upside(score: real): real {
    if score > 1.1 then (score - 1.0) * 50.0
    else if score < 0.9 then (score - 1.0) * 30.0
    else 5.0
  }

  /** The upside never falls as the score rises; it is negative exactly below 0.9,
      and 5 on the neutral band. */
  lemma UpsideShape(s: real, t: real)
    ensures s <= t ==> Upside(s) <= Upside(t)
    ensures Upside(s) < 0.0 <==> s < 0.9
    ensures 0.9 <= s <= 1.1 ==> Upside(s) == 5.0
    ensures s > 1.1 ==> Upside(s) > 5.0
  {
  }

  /** `market_cap * (1 + upside / 100)`. */
  function ImpliedMarketCap(marketCap: real, upside: real): real {
    marketCap * (1.0 + upside / 100.0)
  }

  /** For a positive market cap the implied value is above the current one exactly
      when the upside is positive. */
  lemma ImpliedMarketCapSign(marketCap: real, upside: real)
    requires marketCap > 0.0
    ensures ImpliedMarketCap(marketCap, upside) > marketCap <==> upside > 0.0
    ensures ImpliedMarketCap(marketCap, upside) == marketCap <==> upside == 0.0
  {
    assert ImpliedMarketCap(marketCap, upside) - marketCap == marketCap * (upside / 100.0);
  }

  // ---------------------------------------------------------------------------
  // compare_to_peers

  /** `target_metrics.get(key, 0)`. */
  function Metric(m: map<string, real>, key: string): real {
    if key in m then m[key] else 0.0
  }

  /** `compare_to_peers(ticker, target_metrics, industry)`. */
  function CompareToPeers(ticker: string, targetMetrics: map<string, real>, industry: string): PeerComparison {
    CompareAgainst(ticker, targetMetrics, PeersOf(industry))
  }

  /** The comparison once the industry's peer list is looked up. */
  function CompareAgainst(ticker: string, targetMetrics: map<string, real>, peers: seq<Peer>): PeerComparison {
    var others := Others(peers, ticker);
    var roe := Metric(targetMetrics, "roe");
    var roic := Metric(targetMetrics, "roic");
    var margin := Metric(targetMetrics, "operating_margin");
    var roes, roics, margins := Roes(others), Roics(others), Margins(others);
    var roeMedian, roicMedian, marginMedian := PeerMedian(roes), PeerMedian(roics), PeerMedian(margins);
    var upside := Upside(PerformanceScore(roe, roic, margin, roeMedian, roicMedian, marginMedian));
    PeerComparison(
      ticker, Tickers(others),
      Percentile(roe, roes), Percentile(roic, roics), Percentile(margin, margins),
      roe - roeMedian, roic - roicMedian, margin - marginMedian,
      upside, ImpliedMarketCap(Metric(targetMetrics, "market_cap"), upside))
  }

  /** The tickers of the group never include the target and include every
      other ticker of the list. */
  lemma PeerGroupSpec(peers: seq<Peer>, ticker: string)
    ensures ticker !in Tickers(Others(peers, ticker))
    ensures forall p :: p in peers && p.ticker != ticker ==> p.ticker in Tickers(Others(peers, ticker))
  {
    var others := Others(peers, ticker);
    var group := Tickers(others);
    OthersMembers(peers, ticker);
    forall p | p in peers && p.ticker != ticker ensures p.ticker in group {
      var k :| 0 <= k < |others| && others[k] == p;
      assert group[k] == p.ticker;
    }
    forall k | 0 <= k < |group| ensures group[k] != ticker {
      assert others[k] in others;
    }
  }

  /** The peer group never holds the target and lists every other peer of the
      industry; each gap is the target figure minus the peer median (0 for a
      missing figure); each percentile ranks the target figure among the peers'
      and lies within [0, 100]; the upside comes from the performance score
      against the three medians, and the implied market cap from that upside. */
  lemma CompareToPeersSpec(ticker: string, targetMetrics: map<string, real>, industry: string)
    ensures var c := CompareToPeers(ticker, targetMetrics, industry);
            var others := Others(PeersOf(industry), ticker);
            && c.targetTicker == ticker
            && ticker !in c.peerGroup
            && (forall p :: p in PeersOf(industry) && p.ticker != ticker ==> p.ticker in c.peerGroup)
            && c.roeGap == Metric(targetMetrics, "roe") - PeerMedian(Roes(others))
            && c.roicGap == Metric(targetMetrics, "roic") - PeerMedian(Roics(others))
            && c.marginGap == Metric(targetMetrics, "operating_margin") - PeerMedian(Margins(others))
            && c.roePercentile == Percentile(Metric(targetMetrics, "roe"), Roes(others))
            && c.roicPercentile == Percentile(Metric(targetMetrics, "roic"), Roics(others))
            && c.marginPercentile == Percentile(Metric(targetMetrics, "operating_margin"), Margins(others))
            && 0.0 <= c.roePercentile <= 100.0 && 0.0 <= c.roicPercentile <= 100.0
            && 0.0 <= c.marginPercentile <= 100.0
            && c.upsideToPeerMedian ==
               Upside(PerformanceScore(Metric(targetMetrics, "roe"), Metric(targetMetrics, "roic"),
                                       Metric(targetMetrics, "operating_margin"), PeerMedian(Roes(others)),
                                       PeerMedian(Roics(others)), PeerMedian(Margins(others))))
            && c.impliedMarketCapAtPeerMedian == ImpliedMarketCap(Metric(targetMetrics, "market_cap"), c.upsideToPeerMedian)
  {
    PeerGroupSpec(PeersOf(industry), ticker);
  }

  /** An industry the database lacks is compared against the technology peers. */
  lemma UnknownIndustry(ticker: string, targetMetrics: map<string, real>, industry: string)
    requires industry != "technology"
    ensures CompareToPeers(ticker, targetMetrics, industry) == CompareToPeers(ticker, targetMetrics, "technology")
  {
    assert PeersOf(industry) == PeersOf("technology") == TechnologyPeers;
  }

  /** A peer list none of whose tickers is the target is kept whole. */
  lemma {:induction false} OthersKeepsAll(peers: seq<Peer>, ticker: string)
    requires forall k :: 0 <= k < |peers| ==> peers[k].ticker != ticker
    ensures Others(peers, ticker) == peers
  {
    if peers != [] {
      assert forall k :: 0 <= k < |peers| - 1 ==> peers[1..][k] == peers[k + 1];
      OthersKeepsAll(peers[1..], ticker);
      assert peers == [peers[0]] + peers[1..];
    }
  }

  // ---------------------------------------------------------------------------
  // The module's example run

  /** The target metrics of the example at the foot of the module. */
  const ExampleMetrics: map<string, real> :=
    map["roe" := 18.5, "roic" := 12.0, "operating_margin" := 22.0, "market_cap" := 100000000000.0]

  /** No technology ticker is "TARGET", so the whole list is the peer group. */
  lemma TechnologyWithoutTarget()
    ensures Others(TechnologyPeers, "TARGET") == TechnologyPeers
  {
    var tp := TechnologyPeers;
    forall k | 0 <= k < |tp| ensures tp[k].ticker != "TARGET" {
      assert tp[k].ticker[0] != 'T' || tp[k].ticker[1] != 'A';
    }
    OthersKeepsAll(tp, "TARGET");
  }

  /** The median of seven values is the fourth of their ascending arrangement. */
  lemma MedianOfSeven(xs: seq<real>, s: seq<real>)
    requires |s| == 7 && SortedAsc(s) && multiset(s) == multiset(xs)
    ensures xs != [] && PeerMedian(xs) == s[3]
  {
    SortAscOf(xs, s);
    assert |xs| == |multiset(xs)| == |multiset(s)| == 7;
  }

  /** The count below `v` among seven values, value by value. */
  lemma CountBelowSeven(xs: seq<real>, v: real)
    requires |xs| == 7
    ensures CountBelow(xs, v) ==
            (if xs[0] < v then 1 else 0) + (if xs[1] < v then 1 else 0) + (if xs[2] < v then 1 else 0)
            + (if xs[3] < v then 1 else 0) + (if xs[4] < v then 1 else 0) + (if xs[5] < v then 1 else 0)
            + (if xs[6] < v then 1 else 0)
  {
    assert CountBelow(xs[7..], v) == 0;
    assert CountBelow(xs[6..], v) == (if xs[6] < v then 1 else 0) + CountBelow(xs[7..], v);
    assert CountBelow(xs[5..], v) == (if xs[5] < v then 1 else 0) + CountBelow(xs[6..], v);
    assert CountBelow(xs[4..], v) == (if xs[4] < v then 1 else 0) + CountBelow(xs[5..], v);
    assert CountBelow(xs[3..], v) == (if xs[3] < v then 1 else 0) + CountBelow(xs[4..], v);
    assert CountBelow(xs[2..], v) == (if xs[2] < v then 1 else 0) + CountBelow(xs[3..], v);
    assert CountBelow(xs[1..], v) == (if xs[1] < v then 1 else 0) + CountBelow(xs[2..], v);
  }

  /** The multiset of seven values, element by element. */
  lemma MultisetOfSeven(a: real, b: real, c: real, d: real, e: real, f: real, g: real)
    ensures multiset([a, b, c, d, e, f, g]) == multiset{a, b, c, d, e, f, g}
  {
  }

  /** Seven values in ascending order form a sorted sequence. */
  lemma AscendingSeven(a: real, b: real, c: real, d: real, e: real, f: real, g: real)
    requires a <= b <= c <= d <= e <= f <= g
    ensures SortedAsc([a, b, c, d, e, f, g])
  {
  }

  /** The technology ROEs, rearranged in ascending order. */
  lemma TechnologyRoesPermuted()
    ensures multiset([12.0, 19.0, 22.0, 26.0, 31.0, 38.0, 147.0]) == multiset([147.0, 38.0, 26.0, 12.0, 31.0, 19.0, 22.0])
  {
    MultisetOfSeven(147.0, 38.0, 26.0, 12.0, 31.0, 19.0, 22.0);
    MultisetOfSeven(12.0, 19.0, 22.0, 26.0, 31.0, 38.0, 147.0);
    assert multiset{147.0, 38.0, 26.0, 12.0, 31.0, 19.0, 22.0} == multiset{12.0, 19.0, 22.0, 26.0, 31.0, 38.0, 147.0};
  }

  /** The technology ROEs have median 26; one of them lie below 18.5. */
  lemma TechnologyRoes(xs: seq<real>)
    requires xs == [147.0, 38.0, 26.0, 12.0, 31.0, 19.0, 22.0]
    ensures PeerMedian(xs) == 26.0
    ensures Percentile(18.5, xs) == 100.0 / 7.0
  {
    TechnologyRoesPermuted();
    AscendingSeven(12.0, 19.0, 22.0, 26.0, 31.0, 38.0, 147.0);
    MedianOfSeven(xs, [12.0, 19.0, 22.0, 26.0, 31.0, 38.0, 147.0]);
    CountBelowSeven(xs, 18.5);
  }

  /** The technology ROICs, rearranged in ascending order. */
  lemma TechnologyRoicsPermuted()
    ensures multiset([8.0, 15.0, 18.0, 22.0, 25.0, 28.0, 45.0]) == multiset([45.0, 28.0, 22.0, 8.0, 25.0, 15.0, 18.0])
  {
    MultisetOfSeven(45.0, 28.0, 22.0, 8.0, 25.0, 15.0, 18.0);
    MultisetOfSeven(8.0, 15.0, 18.0, 22.0, 25.0, 28.0, 45.0);
    assert multiset{45.0, 28.0, 22.0, 8.0, 25.0, 15.0, 18.0} == multiset{8.0, 15.0, 18.0, 22.0, 25.0, 28.0, 45.0};
  }

  /** The technology ROICs have median 22; one of them lie below 12.0. */
  lemma TechnologyRoics(xs: seq<real>)
    requires xs == [45.0, 28.0, 22.0, 8.0, 25.0, 15.0, 18.0]
    ensures PeerMedian(xs) == 22.0
    ensures Percentile(12.0, xs) == 100.0 / 7.0
  {
    TechnologyRoicsPermuted();
    AscendingSeven(8.0, 15.0, 18.0, 22.0, 25.0, 28.0, 45.0);
    MedianOfSeven(xs, [8.0, 15.0, 18.0, 22.0, 25.0, 28.0, 45.0]);
    CountBelowSeven(xs, 12.0);
  }

  /** The technology operating margins, rearranged in ascending order. */
  lemma TechnologyMarginsPermuted()
    ensures multiset([8.0, 19.0, 21.0, 27.0, 30.0, 35.0, 42.0]) == multiset([30.0, 42.0, 27.0, 8.0, 35.0, 19.0, 21.0])
  {
    MultisetOfSeven(30.0, 42.0, 27.0, 8.0, 35.0, 19.0, 21.0);
    MultisetOfSeven(8.0, 19.0, 21.0, 27.0, 30.0, 35.0, 42.0);
    assert multiset{30.0, 42.0, 27.0, 8.0, 35.0, 19.0, 21.0} == multiset{8.0, 19.0, 21.0, 27.0, 30.0, 35.0, 42.0};
  }

  /** The technology operating margins have median 27; three of them lie below 22.0. */
  lemma TechnologyMargins(xs: seq<real>)
    requires xs == [30.0, 42.0, 27.0, 8.0, 35.0, 19.0, 21.0]
    ensures PeerMedian(xs) == 27.0
    ensures Percentile(22.0, xs) == 300.0 / 7.0
  {
    TechnologyMarginsPermuted();
    AscendingSeven(8.0, 19.0, 21.0, 27.0, 30.0, 35.0, 42.0);
    MedianOfSeven(xs, [8.0, 19.0, 21.0, 27.0, 30.0, 35.0, 42.0]);
    CountBelowSeven(xs, 22.0);
  }

  /** The example's performance score, 1783/2574, is below 0.9, so its upside
      is (score - 1)·30 = -3955/429 percent. */
  lemma ExampleUpside()
    ensures Upside(PerformanceScore(18.5, 12.0, 22.0, 26.0, 22.0, 27.0)) == -3955.0 / 429.0
  {
    assert PerformanceScore(18.5, 12.0, 22.0, 26.0, 22.0, 27.0) == 1783.0 / 2574.0;
  }

  /** The example's target figures. */
  lemma ExampleFigures(m: map<string, real>)
    requires m == ExampleMetrics
    ensures Metric(m, "roe") == 18.5 && Metric(m, "roic") == 12.0
    ensures Metric(m, "operating_margin") == 22.0 && Metric(m, "market_cap") == 100000000000.0
  {
  }

  /** The example's peer group is the whole technology list. */
  lemma ExampleGroup(ticker: string, industry: string)
    requires ticker == "TARGET" && industry == "technology"
    ensures Others(PeersOf(industry), ticker) == TechnologyPeers
  {
    assert PeersOf(industry) == TechnologyPeers;
    TechnologyWithoutTarget();
  }

  /** The technology list's tickers and figures, in list order. */
  lemma TechnologyColumns()
    ensures Tickers(TechnologyPeers) == ["AAPL", "MSFT", "GOOGL", "AMZN", "META", "TSLA", "NFLX"]
    ensures Roes(TechnologyPeers) == [147.0, 38.0, 26.0, 12.0, 31.0, 19.0, 22.0]
    ensures Roics(TechnologyPeers) == [45.0, 28.0, 22.0, 8.0, 25.0, 15.0, 18.0]
    ensures Margins(TechnologyPeers) == [30.0, 42.0, 27.0, 8.0, 35.0, 19.0, 21.0]
  {
  }

  /** The module's example run: "TARGET" against the seven technology peers.
      Every technology peer is in the group; the peer medians are 26 (ROE), 22
      (ROIC) and 27 (margin); the target beats one ROE, one ROIC and three
      margins of seven, and its score gives an upside of -3955/429 percent. */
  lemma ExampleComparison(ticker: string, targetMetrics: map<string, real>, industry: string)
    requires ticker == "TARGET" && targetMetrics == ExampleMetrics && industry == "technology"
    ensures CompareToPeers(ticker, targetMetrics, industry) ==
            PeerComparison("TARGET", ["AAPL", "MSFT", "GOOGL", "AMZN", "META", "TSLA", "NFLX"],
                           100.0 / 7.0, 100.0 / 7.0, 300.0 / 7.0, -7.5, -10.0, -5.0,
                           -3955.0 / 429.0, 38945000000000.0 / 429.0)
  {
    ExampleGroup(ticker, industry);
    var others := Others(PeersOf(industry), ticker);
    TechnologyColumns();
    TechnologyRoes(Roes(others));
    TechnologyRoics(Roics(others));
    TechnologyMargins(Margins(others));
    ExampleUpside();
    ExampleFigures(targetMetrics);
  }
}

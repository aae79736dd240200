/** The filing locator's view of an EDGAR Atom feed (`SECFetcher._parse_atom_feed`
    in tools/sec_fetcher.py): which entries survive, what record each becomes, and
    the order the records are returned in. */
module AtomFeed {
  import opened Wrappers
  import opened Strings

  /** What the regular expressions of the parser find in one `<entry>` block: the
      first capture of each, or `None` when the pattern does not match. */
  datatype FeedEntry = FeedEntry(
    filingDate: Option<string>,         // <filing-date>([\d-]+)</filing-date>
    accessionNumber: Option<string>,    // <accession-number>([\d-]+)</accession-number>
    accessionFallback: Option<string>,  // accession[_-]?number[=:]([0-9-]+), case-insensitive
    filingHref: Option<string>)         // <filing-href>(.*?)</filing-href>

  /** A located filing: the `{'date', 'accession', 'url'}` dictionary. */
  datatype FilingRef = FilingRef(date: string, accession: string, url: Option<string>)

  /** `datetime.strptime(text, '%Y-%m-%d')` as a day number; `None` where it raises. */
  type DateParser = string -> Option<int>

  /** The lookback cutoff `now - timedelta(days=365 * years)`, with `now` a day
      number whose fractional part is the time of day. */
  function Cutoff(now: real, years: int): real {
    now - (365 * years) as real
  }

  /** The accession number: the tag when present, the loose fallback pattern otherwise. */
  function Accession(e: FeedEntry): Option<string> {
    if e.accessionNumber.Some? then e.accessionNumber else e.accessionFallback
  }

  /** The entry is kept: it has a date that parses, is not before the cutoff, and
      has an accession number. */
  predicate Accepted(e: FeedEntry, cutoff: real, parse: DateParser) {
    && e.filingDate.Some?
    && parse(e.filingDate.value).Some?
    && parse(e.filingDate.value).value as real >= cutoff
    && Accession(e).Some?
  }

  /** The record an entry becomes: `url` is `None` exactly when there is no `<filing-href>`. */
  function ToRef(e: FeedEntry): FilingRef
    requires e.filingDate.Some? && Accession(e).Some?
  {
    FilingRef(e.filingDate.value, Accession(e).value, e.filingHref)
  }

  /** The records of the kept entries, in feed order (the list before sorting). */
  function Kept(es: seq<FeedEntry>, cutoff: real, parse: DateParser): seq<FilingRef>
    decreases |es|
  {
    if es == [] then []
    else
      var init := Kept(es[..|es| - 1], cutoff, parse);
      var e := es[|es| - 1];
      if Accepted(e, cutoff, parse) then init + [ToRef(e)] else init
  }

  /** One more entry extends the kept records by that entry's record, if accepted. */
  lemma KeptStep(es: seq<FeedEntry>, i: nat, cutoff: real, parse: DateParser)
    requires i < |es|
    ensures Kept(es[..i + 1], cutoff, parse) ==
            Kept(es[..i], cutoff, parse) + (if Accepted(es[i], cutoff, parse) then [ToRef(es[i])] else [])
  {
    assert es[..i + 1][..i] == es[..i];
  }

  /** A record is kept exactly when some accepted entry produces it. */
  lemma {:induction false} KeptMembers(es: seq<FeedEntry>, cutoff: real, parse: DateParser, f: FilingRef)
    ensures f in Kept(es, cutoff, parse) <==>
            exists i :: 0 <= i < |es| && Accepted(es[i], cutoff, parse) && ToRef(es[i]) == f
    decreases |es|
  {
    if es != [] {
      var init := es[..|es| - 1];
      KeptMembers(init, cutoff, parse, f);
      assert forall i :: 0 <= i < |init| ==> init[i] == es[i];
      if f in Kept(es, cutoff, parse) && f !in Kept(init, cutoff, parse) {
        assert Accepted(es[|es| - 1], cutoff, parse) && ToRef(es[|es| - 1]) == f;
      }
    }
  }

  // ---------------------------------------------------------------------------
  // `filings.sort(key=lambda x: x['date'], reverse=True)`: Python's sort is
  // stable, also with reverse=True, so records with equal dates keep their order.

  /** Dates never increase along the sequence. */
  predicate SortedByDateDesc(s: seq<FilingRef>) {
    forall i, j :: 0 <= i < j < |s| ==> LexLe(s[j].date, s[i].date)
  }

  /** Insert `x` before the first record whose date is not later than its own. */
  function InsertByDate(x: FilingRef, s: seq<FilingRef>): (r: seq<FilingRef>)
    ensures multiset(r) == multiset(s) + multiset{x}
  {
    if s == [] || LexLe(s[0].date, x.date) then [x] + s
    else
      var r := [s[0]] + InsertByDate(x, s[1..]);
      assert s == [s[0]] + s[1..];
      r
  }

  /** The inserted list holds `x` and the records of `s`, and nothing else. */
  lemma {:induction false} InsertByDateMembers(x: FilingRef, s: seq<FilingRef>, y: FilingRef)
    ensures y in InsertByDate(x, s) <==> y == x || y in s
  {
    assert y in InsertByDate(x, s) <==> y in multiset(InsertByDate(x, s));
  }

  /** A record no earlier than every record of a sorted list can head it. */
  lemma SortedCons(y: FilingRef, t: seq<FilingRef>)
    requires SortedByDateDesc(t)
    requires forall k :: 0 <= k < |t| ==> LexLe(t[k].date, y.date)
    ensures SortedByDateDesc([y] + t)
  {
    var r := [y] + t;
    forall i, j | 0 <= i < j < |r| ensures LexLe(r[j].date, r[i].date) {
      assert r[j] == t[j - 1];
      if i > 0 { assert r[i] == t[i - 1]; }
    }
  }

  lemma {:induction false} InsertSorted(x: FilingRef, s: seq<FilingRef>)
    requires SortedByDateDesc(s)
    ensures SortedByDateDesc(InsertByDate(x, s))
  {
    if s == [] {
    } else if LexLe(s[0].date, x.date) {
      forall k | 0 <= k < |s| ensures LexLe(s[k].date, x.date) {
        if k > 0 { LexLeTrans(s[k].date, s[0].date, x.date); }
      }
      SortedCons(x, s);
    } else {
      var t := InsertByDate(x, s[1..]);
      assert InsertByDate(x, s) == [s[0]] + t;
      InsertSorted(x, s[1..]);
      LexLeTotal(s[0].date, x.date);
      forall k | 0 <= k < |t| ensures LexLe(t[k].date, s[0].date) {
        InsertByDateMembers(x, s[1..], t[k]);
        if t[k] != x {
          var m :| 0 <= m < |s[1..]| && s[1..][m] == t[k];
          assert s[m + 1] == t[k];
        }
      }
      SortedCons(s[0], t);
    }
  }

  /** The sorted list: non-increasing by date and a permutation of the input. */
  function SortByDateDesc(s: seq<FilingRef>): (r: seq<FilingRef>)
    ensures SortedByDateDesc(r)
    ensures multiset(r) == multiset(s)
  {
    if s == [] then []
    else
      var t := SortByDateDesc(s[1..]);
      InsertSorted(s[0], t);
      assert s == [s[0]] + s[1..];
      InsertByDate(s[0], t)
  }

  /** The records of `s` with date `d`, in order. */
  function WithDate(s: seq<FilingRef>, d: string): seq<FilingRef> {
    if s == [] then [] else (if s[0].date == d then [s[0]] else []) + WithDate(s[1..], d)
  }

  lemma WithDateCons(y: FilingRef, s: seq<FilingRef>, d: string)
    ensures WithDate([y] + s, d) == (if y.date == d then [y] else []) + WithDate(s, d)
  {
    assert ([y] + s)[0] == y && ([y] + s)[1..] == s;
  }

  lemma {:induction false} InsertStable(x: FilingRef, s: seq<FilingRef>, d: string)
    ensures WithDate(InsertByDate(x, s), d) == (if x.date == d then [x] else []) + WithDate(s, d)
  {
    if s == [] || LexLe(s[0].date, x.date) {
      WithDateCons(x, s, d);
    } else {
      var t := InsertByDate(x, s[1..]);
      assert InsertByDate(x, s) == [s[0]] + t;
      InsertStable(x, s[1..], d);
      WithDateCons(s[0], t, d);
      assert s == [s[0]] + s[1..];
      WithDateCons(s[0], s[1..], d);
      LexLeRefl(x.date);
      var h0 := if s[0].date == d then [s[0]] else [];
      var hx := if x.date == d then [x] else [];
      var w := WithDate(s[1..], d);
      assert h0 == [] || hx == [];
      assert h0 + (hx + w) == hx + (h0 + w);
    }
  }

  /** Stability: the sort keeps records with equal dates in their original order. */
  lemma {:induction false} SortStable(s: seq<FilingRef>, d: string)
    ensures WithDate(SortByDateDesc(s), d) == WithDate(s, d)
  {
    if s != [] {
      SortStable(s[1..], d);
      InsertStable(s[0], SortByDateDesc(s[1..]), d);
    }
  }

  // ---------------------------------------------------------------------------

  /** What `_parse_atom_feed(xml, years)` returns for a feed whose entries are `es`. */
  function ParsedFeed(es: seq<FeedEntry>, years: int, now: real, parse: DateParser): seq<FilingRef> {
    SortByDateDesc(Kept(es, Cutoff(now, years), parse))
  }

  /** The parsed feed is sorted newest first, is a permutation of the kept records,
      and holds exactly the records of entries that have a date within the lookback
      window and an accession number. */
  lemma ParsedFeedSpec(es: seq<FeedEntry>, years: int, now: real, parse: DateParser, f: FilingRef)
    ensures SortedByDateDesc(ParsedFeed(es, years, now, parse))
    ensures multiset(ParsedFeed(es, years, now, parse)) == multiset(Kept(es, Cutoff(now, years), parse))
    ensures f in ParsedFeed(es, years, now, parse) <==>
            exists i :: 0 <= i < |es| && Accepted(es[i], Cutoff(now, years), parse) && ToRef(es[i]) == f
  {
    var kept := Kept(es, Cutoff(now, years), parse);
    assert f in ParsedFeed(es, years, now, parse) <==> f in multiset(kept);
    KeptMembers(es, Cutoff(now, years), parse, f);
  }

  /** Every record of the parsed feed carries the date of an entry whose day is
      no earlier than the cutoff. */
  lemma ParsedFeedWithinWindow(es: seq<FeedEntry>, years: int, now: real, parse: DateParser, k: nat)
    requires k < |ParsedFeed(es, years, now, parse)|
    ensures var f := ParsedFeed(es, years, now, parse)[k];
            parse(f.date).Some? && parse(f.date).value as real >= now - (365 * years) as real
  {
    var f := ParsedFeed(es, years, now, parse)[k];
    ParsedFeedSpec(es, years, now, parse, f);
    var i :| 0 <= i < |es| && Accepted(es[i], Cutoff(now, years), parse) && ToRef(es[i]) == f;
  }
}

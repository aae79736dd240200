/** The few Python `str` and `posixpath` operations the pipeline relies on,
    defined on `seq<char>` with the lemmas that pin down their meaning. */
module Strings {
  import opened Wrappers

  // ---------------------------------------------------------------------------
  // Case mapping (ASCII letters only; see README "Left out")

  function UpperChar(c: char): char {
    if 'a' <= c <= 'z' then (c as int - 32) as char else c
  }

  function LowerChar(c: char): char {
    if 'A' <= c <= 'Z' then (c as int + 32) as char else c
  }

  /** `s.upper()` */
  function Upper(s: string): string {
    seq(|s|, i requires 0 <= i < |s| => UpperChar(s[i]))
  }

  /** `s.lower()` */
  function Lower(s: string): string {
    seq(|s|, i requires 0 <= i < |s| => LowerChar(s[i]))
  }

  predicate IsUpperLetter(c: char) {
    'A' <= c <= 'Z'
  }

  // ---------------------------------------------------------------------------
  // Prefixes, suffixes, substrings

  /** `s.startswith(p)` */
  predicate StartsWith(s: string, p: string) {
    |p| <= |s| && s[..|p|] == p
  }

  /** `s.endswith(p)` */
  predicate EndsWith(s: string, p: string) {
    |p| <= |s| && s[|s| - |p|..] == p
  }

  /** `p in s`: some suffix of `s` starts with `p`. */
  predicate Contains(s: string, p: string)
    decreases |s|
  {
    StartsWith(s, p) || (s != [] && Contains(s[1..], p))
  }

  /** `p` occurs in `s` starting at index `j`. */
  predicate OccursAt(s: string, p: string, j: int) {
    0 <= j <= |s| && StartsWith(s[j..], p)
  }

  /** Occurrences in `s` past its first character are the occurrences in `s[1..]`, shifted. */
  lemma OccursShift(s: string, p: string)
    requires s != []
    ensures forall j :: 1 <= j <= |s| ==> (OccursAt(s, p, j) <==> OccursAt(s[1..], p, j - 1))
  {
    forall j | 1 <= j <= |s| ensures s[j..] == s[1..][j - 1..] { }
  }

  /** An occurrence anywhere means `p in s`. */
  lemma {:induction false} OccursContains(s: string, p: string, j: nat)
    requires OccursAt(s, p, j)
    ensures Contains(s, p)
    decreases j
  {
    if j > 0 {
      OccursShift(s, p);
      OccursContains(s[1..], p, j - 1);
    } else {
      assert s[0..] == s;
    }
  }

  /** `s.find(p)`, with `None` for -1: the first index at which `p` occurs. */
  function IndexOf(s: string, p: string): (r: Option<nat>)
    decreases |s|
    ensures r.None? <==> !Contains(s, p)
    ensures r.Some? ==> OccursAt(s, p, r.value)
    ensures r.Some? ==> forall j :: 0 <= j < r.value ==> !OccursAt(s, p, j)
  {
    if StartsWith(s, p) then
      assert s[0..] == s;
      Some(0)
    else if s == [] then None
    else
      match IndexOf(s[1..], p)
      case None => None
      case Some(i) =>
        OccursShift(s, p);
        assert s[0..] == s;
        Some(i + 1)
  }

  /** No occurrence of `p` starts before `i`, so the prefix `s[..i]` holds none. */
  lemma {:induction false} NoOccurrenceBefore(s: string, p: string, i: nat)
    requires |p| > 0 && i <= |s|
    requires forall j :: 0 <= j < i ==> !OccursAt(s, p, j)
    ensures !Contains(s[..i], p)
  {
    if i > 0 {
      assert !OccursAt(s, p, 0);
      assert s[0..] == s;
      assert !StartsWith(s[..i], p);
      OccursShift(s, p);
      forall j | 0 <= j < i - 1 ensures !OccursAt(s[1..], p, j) {
        assert !OccursAt(s, p, j + 1);
      }
      NoOccurrenceBefore(s[1..], p, i - 1);
      assert s[..i][1..] == s[1..][..i - 1];
    }
  }

  // ---------------------------------------------------------------------------
  // str.split(sep) and its inverse str.join

  /** `s.split(sep)` for a non-empty separator. */
  function Split(s: string, sep: string): (parts: seq<string>)
    requires |sep| > 0
    decreases |s|
    ensures |parts| >= 1
  {
    match IndexOf(s, sep)
    case None => [s]
    case Some(i) => [s[..i]] + Split(s[i + |sep|..], sep)
  }

  /** `sep.join(parts)` */
  function Join(parts: seq<string>, sep: string): string
    requires |parts| >= 1
  {
    if |parts| == 1 then parts[0] else parts[0] + sep + Join(parts[1..], sep)
  }

  /** `parts[-1]` */
  function Last(parts: seq<string>): string
    requires |parts| >= 1
  {
    parts[|parts| - 1]
  }

  /** One step of a split: the text up to the first separator, then the split of the rest. */
  lemma SplitStep(s: string, sep: string) returns (i: nat, rest: string)
    requires |sep| > 0 && Contains(s, sep)
    ensures IndexOf(s, sep) == Some(i) && i + |sep| <= |s| && rest == s[i + |sep|..]
    ensures Split(s, sep) == [s[..i]] + Split(rest, sep)
  {
    i := FirstIndex(s, sep);
    rest := s[i + |sep|..];
    SplitUnfold(s, sep, i);
  }

  lemma FirstIndex(s: string, sep: string) returns (i: nat)
    requires Contains(s, sep)
    ensures IndexOf(s, sep) == Some(i) && i + |sep| <= |s|
  {
    i := IndexOf(s, sep).value;
    assert OccursAt(s, sep, i);
  }

  lemma SplitUnfold(s: string, sep: string, i: nat)
    requires |sep| > 0 && IndexOf(s, sep) == Some(i) && i + |sep| <= |s|
    ensures Split(s, sep) == [s[..i]] + Split(s[i + |sep|..], sep)
  {
    var a := Split(s, sep);
    var b := [s[..i]] + Split(s[i + |sep|..], sep);
    assert |a| == |b|;
    assert a[0] == b[0];
    assert a[1..] == b[1..];
  }

  /** The string around its first separator. */
  lemma SplitStepText(s: string, sep: string, i: nat)
    requires |sep| > 0 && IndexOf(s, sep) == Some(i)
    ensures s == s[..i] + sep + s[i + |sep|..]
    ensures EndsWith(s, sep + s[i + |sep|..])
    ensures !Contains(s[..i], sep)
  {
    assert OccursAt(s, sep, i);
    var j := i + |sep|;
    assert s[i..][..|sep|] == sep;
    assert s[i..j] == s[i..][..|sep|];
    assert s[i..] == sep + s[j..] by {
      assert s[i..] == s[i..j] + s[j..];
    }
    assert s == s[..i] + s[i..];
    assert s[|s| - |sep + s[j..]|..] == s[i..];
    NoOccurrenceBefore(s, sep, i);
  }

  /** Without a separator the split is the whole string. */
  lemma SplitWhole(s: string, sep: string)
    requires |sep| > 0 && !Contains(s, sep)
    ensures Split(s, sep) == [s]
  {
    var a := Split(s, sep);
    assert |a| == 1;
    assert a[0] == s;
  }

  /** Joining the pieces of a split with the same separator gives back the string. */
  lemma {:induction false} JoinSplit(s: string, sep: string)
    requires |sep| > 0
    ensures Join(Split(s, sep), sep) == s
    decreases |s|
  {
    if Contains(s, sep) {
      var i, rest := SplitStep(s, sep);
      JoinSplit(rest, sep);
      var parts := Split(s, sep);
      assert parts[1..] == Split(rest, sep);
      SplitStepText(s, sep, i);
    }
  }

  /** No piece of a split contains the separator. */
  lemma {:induction false} SplitPiecesFree(s: string, sep: string)
    requires |sep| > 0
    ensures forall k :: 0 <= k < |Split(s, sep)| ==> !Contains(Split(s, sep)[k], sep)
  {
    forall k | 0 <= k < |Split(s, sep)| ensures !Contains(Split(s, sep)[k], sep) {
      SplitPieceFree(s, sep, k);
    }
  }

  lemma {:induction false} SplitPieceFree(s: string, sep: string, k: nat)
    requires |sep| > 0 && k < |Split(s, sep)|
    ensures !Contains(Split(s, sep)[k], sep)
    decreases |s|
  {
    if Contains(s, sep) {
      var i, rest := SplitStep(s, sep);
      if k == 0 {
        SplitStepText(s, sep, i);
      } else {
        SplitPieceFree(rest, sep, k - 1);
      }
    } else {
      SplitWhole(s, sep);
    }
  }

  /** The last piece of a split is a suffix of the string, and when the separator
      occurs it is what follows the last occurrence. */
  lemma {:induction false} SplitLast(s: string, sep: string)
    requires |sep| > 0
    ensures EndsWith(s, Last(Split(s, sep)))
    ensures Contains(s, sep) ==> EndsWith(s, sep + Last(Split(s, sep)))
    decreases |s|
  {
    if Contains(s, sep) {
      var i, rest := SplitStep(s, sep);
      SplitLast(rest, sep);
      SplitStepText(s, sep, i);
      LastOfCons(s[..i], Split(rest, sep));
      var tail := Last(Split(rest, sep));
      if Contains(rest, sep) {
        EndsWithTrans(s, rest, sep + tail);
      } else {
        assert Split(rest, sep) == [rest];
      }
      EndsWithTrans(s, sep + rest, rest);
      EndsWithTrans(s, rest, tail);
    } else {
      assert Split(s, sep) == [s];
      assert s[|s| - |s|..] == s;
    }
  }

  lemma LastOfCons(x: string, parts: seq<string>)
    requires |parts| >= 1
    ensures Last([x] + parts) == Last(parts)
  {
  }

  lemma EndsWithTrans(a: string, b: string, c: string)
    requires EndsWith(a, b) && EndsWith(b, c)
    ensures EndsWith(a, c)
  {
    assert a[|a| - |c|..] == a[|a| - |b|..][|b| - |c|..];
  }

  // ---------------------------------------------------------------------------
  // str.replace(pat, rep)

  /** `s.replace(pat, rep)`: every non-overlapping occurrence of `pat`, scanning
      left to right, is replaced by `rep`. Every character of the result comes
      from `s` or from `rep`. */
  function ReplaceAll(s: string, pat: string, rep: string): (r: string)
    requires |pat| > 0
    decreases |s|
    ensures forall c :: c in r ==> c in s || c in rep
  {
    if s == [] then []
    else if StartsWith(s, pat) then
      var tail := ReplaceAll(s[|pat|..], pat, rep);
      assert forall c :: c in s[|pat|..] ==> c in s;
      rep + tail
    else
      var tail := ReplaceAll(s[1..], pat, rep);
      assert forall c :: c in s[1..] ==> c in s;
      [s[0]] + tail
  }

  /** A string in which the pattern's first character never occurs is unchanged. */
  lemma {:induction false} ReplaceAllIdentity(s: string, pat: string, rep: string)
    requires |pat| > 0 && pat[0] !in s
    ensures ReplaceAll(s, pat, rep) == s
    decreases |s|
  {
    if s != [] {
      assert s[0] != pat[0];
      assert forall c :: c in s[1..] ==> c in s;
      ReplaceAllIdentity(s[1..], pat, rep);
    }
  }

  /** A character the replacement brings in only appears where the pattern occurred. */
  lemma ReplaceAllNewChars(s: string, pat: string, rep: string)
    requires |pat| > 0
    ensures forall c :: c in ReplaceAll(s, pat, rep) && c !in s ==> pat[0] in s
  {
    if pat[0] !in s {
      ReplaceAllIdentity(s, pat, rep);
    }
  }

  /** Replacing a single character by a text that does not hold it removes it. */
  lemma {:induction false} ReplaceCharRemoved(s: string, c: char, rep: string)
    requires c !in rep
    ensures c !in ReplaceAll(s, [c], rep)
    decreases |s|
  {
    if s != [] {
      if StartsWith(s, [c]) {
        ReplaceCharRemoved(s[1..], c, rep);
      } else {
        assert s[..1] == [s[0]];
        ReplaceCharRemoved(s[1..], c, rep);
      }
    }
  }

  /** `s` with every `c` dropped and the other characters kept in order. */
  function RemoveChar(s: string, c: char): (r: string)
    ensures c !in r
  {
    if s == [] then [] else (if s[0] == c then [] else [s[0]]) + RemoveChar(s[1..], c)
  }

  /** `s.replace(c, '')` removes exactly the occurrences of `c`. */
  lemma {:induction false} ReplaceCharByNothing(s: string, c: char)
    ensures ReplaceAll(s, [c], "") == RemoveChar(s, c)
    decreases |s|
  {
    if s != [] {
      assert StartsWith(s, [c]) <==> s[0] == c by { assert s[..1] == [s[0]]; }
      ReplaceCharByNothing(s[1..], c);
    }
  }

  // ---------------------------------------------------------------------------
  // Decimal numerals: str(n), int(s), s.zfill(width)

  predicate AllDigits(s: string) {
    forall i :: 0 <= i < |s| ==> '0' <= s[i] <= '9'
  }

  function DigitChar(d: nat): char
    requires d < 10
  {
    ('0' as int + d) as char
  }

  /** `str(n)` for a non-negative integer: no leading zero except for `"0"`. */
  function NatToDecimal(n: nat): (r: string)
    ensures |r| >= 1 && AllDigits(r)
    ensures r[0] == '0' <==> n == 0
    decreases n
  {
    if n < 10 then [DigitChar(n)] else NatToDecimal(n / 10) + [DigitChar(n % 10)]
  }

  /** `int(s)` for a string of decimal digits. */
  function DecimalValue(s: string): nat
    requires AllDigits(s)
  {
    if s == [] then 0
    else DecimalValue(s[..|s| - 1]) * 10 + (s[|s| - 1] as int - '0' as int)
  }

  /** `int(str(n)) == n` */
  lemma {:induction false} DecimalRoundTrip(n: nat)
    ensures DecimalValue(NatToDecimal(n)) == n
    decreases n
  {
    if n >= 10 {
      DecimalRoundTrip(n / 10);
      var s := NatToDecimal(n);
      assert s[..|s| - 1] == NatToDecimal(n / 10);
    }
  }

  function Zeros(k: nat): (r: string)
    ensures |r| == k && AllDigits(r)
  {
    seq(k, _ => '0')
  }

  /** Leading zeros do not change the value `int()` reads. */
  lemma {:induction false} LeadingZerosValue(k: nat, d: string)
    requires AllDigits(d)
    ensures AllDigits(Zeros(k) + d) && DecimalValue(Zeros(k) + d) == DecimalValue(d)
    decreases |d|
  {
    var s := Zeros(k) + d;
    assert AllDigits(s) by {
      forall i | 0 <= i < |s| ensures '0' <= s[i] <= '9' {
        if i < k { assert s[i] == Zeros(k)[i]; } else { assert s[i] == d[i - k]; }
      }
    }
    if d == [] {
      assert s == Zeros(k);
      ZerosValue(k);
    } else {
      var d' := d[..|d| - 1];
      assert s[..|s| - 1] == Zeros(k) + d';
      LeadingZerosValue(k, d');
    }
  }

  lemma {:induction false} ZerosValue(k: nat)
    ensures DecimalValue(Zeros(k)) == 0
  {
    if k > 0 {
      assert Zeros(k)[..k - 1] == Zeros(k - 1);
      ZerosValue(k - 1);
    }
  }

  /** `s.zfill(width)` for an unsigned numeral: left-padded with zeros to `width`;
      a string already that wide is returned as it is. */
  function ZeroFill(s: string, width: nat): (r: string)
    ensures |s| >= width ==> r == s
    ensures |s| < width ==> |r| == width && EndsWith(r, s) && r[..width - |s|] == Zeros(width - |s|)
  {
    if |s| >= width then s else Zeros(width - |s|) + s
  }

  // ---------------------------------------------------------------------------
  // Lexicographic order on code points (Python's `<=` on str)

  predicate LexLe(a: string, b: string)
    decreases |a|
  {
    a == [] || (b != [] && (a[0] < b[0] || (a[0] == b[0] && LexLe(a[1..], b[1..]))))
  }

  lemma {:induction false} LexLeRefl(a: string)
    ensures LexLe(a, a)
    decreases |a|
  {
    if a != [] { LexLeRefl(a[1..]); }
  }

  lemma {:induction false} LexLeTotal(a: string, b: string)
    ensures LexLe(a, b) || LexLe(b, a)
    decreases |a|
  {
    if a != [] && b != [] && a[0] == b[0] { LexLeTotal(a[1..], b[1..]); }
  }

  lemma {:induction false} LexLeTrans(a: string, b: string, c: string)
    requires LexLe(a, b) && LexLe(b, c)
    ensures LexLe(a, c)
    decreases |a|
  {
    if a != [] && a[0] == b[0] && b[0] == c[0] { LexLeTrans(a[1..], b[1..], c[1..]); }
  }

  // ---------------------------------------------------------------------------
  // posixpath.join and posixpath.basename

  /** `os.path.join(a, b)` on POSIX. */
  function PathJoin(a: string, b: string): string {
    if StartsWith(b, "/") then b
    else if a == [] || EndsWith(a, "/") then a + b
    else a + "/" + b
  }

  /** `os.path.basename(p)`: what follows the last `/`; the path itself when there is none. */
  function Basename(p: string): string {
    Last(Split(p, "/"))
  }
}

/** The report text cleaner `clean_text_for_pdf` of app.py: markdown markers are
    stripped, smart punctuation is mapped to Latin-1, three HTML entities are
    decoded and every character outside Latin-1 is dropped. Each step is a
    function of its own; `CleanTextForPdf` chains them in the source's order. */
module PdfText {
  import opened Strings

  /** The characters the regular-expression class `\s` matches in a `str`
      pattern: those for which `str.isspace()` holds. */
  predicate IsSpace(c: char) {
    || '\t' <= c <= '\r'
    || '\U{1C}' <= c <= ' '
    || c == '\U{85}' || c == '\U{A0}' || c == '\U{1680}'
    || '\U{2000}' <= c <= '\U{200A}'
    || c == '\U{2028}' || c == '\U{2029}' || c == '\U{202F}' || c == '\U{205F}' || c == '\U{3000}'
  }

  /** `s` without its leading run of `#`. */
  function DropHashes(s: string): (r: string)
    ensures |r| <= |s| && r == s[|s| - |r|..]
    ensures s != [] && s[0] == '#' ==> |r| < |s|
    ensures r == [] || r[0] != '#'
    ensures forall i :: 0 <= i < |s| - |r| ==> s[i] == '#'
  {
    if s != [] && s[0] == '#' then
      var r := DropHashes(s[1..]);
      assert forall i :: 1 <= i < |s| - |r| ==> s[i] == s[1..][i - 1];
      r
    else s
  }

  /** `s` without its leading run of whitespace. */
  function DropSpaces(s: string): (r: string)
    ensures |r| <= |s| && r == s[|s| - |r|..]
    ensures r == [] || !IsSpace(r[0])
    ensures forall i :: 0 <= i < |s| - |r| ==> IsSpace(s[i])
  {
    if s != [] && IsSpace(s[0]) then
      var r := DropSpaces(s[1..]);
      assert forall i :: 1 <= i < |s| - |r| ==> s[i] == s[1..][i - 1];
      r
    else s
  }

  /** Every character of a suffix is a character of the whole. */
  lemma SuffixChars(s: string, k: nat)
    requires k <= |s|
    ensures forall c :: c in s[k..] ==> c in s
  {
  }

  /** `re.sub(r'#+\s*', '', s)`: each run of `#` is removed together with the
      whitespace that follows it. No `#` is left, and nothing new appears. */
  function StripHeadings(s: string): (r: string)
    ensures '#' !in r
    ensures forall c :: c in r ==> c in s
    decreases |s|
  {
    if s == [] then []
    else if s[0] == '#' then
      var rest := DropSpaces(DropHashes(s));
      SuffixChars(s, |s| - |DropHashes(s)|);
      SuffixChars(DropHashes(s), |DropHashes(s)| - |rest|);
      StripHeadings(rest)
    else
      SuffixChars(s, 1);
      [s[0]] + StripHeadings(s[1..])
  }

  /** A text without `#` is left alone by the heading pattern. */
  lemma {:induction false} StripHeadingsIdentity(s: string)
    requires '#' !in s
    ensures StripHeadings(s) == s
    decreases |s|
  {
    if s != [] {
      SuffixChars(s, 1);
      StripHeadingsIdentity(s[1..]);
    }
  }

  /** `s.replace('**', '').replace('*', '')`: the emphasis markers. */
  function StripEmphasis(s: string): (r: string)
    ensures '*' !in r
    ensures forall c :: c in r ==> c in s
  {
    var t := ReplaceAll(s, "**", "");
    ReplaceCharRemoved(t, '*', "");
    ReplaceAll(t, "*", "")
  }

  /** Removing the pairs first does not change the outcome: the two replacements
      together drop exactly the asterisks and keep every other character in order. */
  lemma StripEmphasisRemovesStars(s: string)
    ensures StripEmphasis(s) == RemoveChar(s, '*')
  {
    PairsThenStars(s);
    ReplaceCharByNothing(ReplaceAll(s, "**", ""), '*');
  }

  lemma {:induction false} PairsThenStars(s: string)
    ensures RemoveChar(ReplaceAll(s, "**", ""), '*') == RemoveChar(s, '*')
    decreases |s|
  {
    if s != [] {
      if StartsWith(s, "**") {
        assert ReplaceAll(s, "**", "") == ReplaceAll(s[2..], "**", "");
        PairsThenStars(s[2..]);
        assert s[..2] == "**";
        assert s == "**" + s[2..];
        RemoveCharConcat("**", s[2..], '*');
      } else {
        var tail := ReplaceAll(s[1..], "**", "");
        assert ReplaceAll(s, "**", "") == [s[0]] + tail;
        PairsThenStars(s[1..]);
        RemoveCharConcat([s[0]], tail, '*');
        assert s == [s[0]] + s[1..];
        RemoveCharConcat([s[0]], s[1..], '*');
      }
    }
  }

  lemma {:induction false} RemoveCharConcat(a: string, b: string, c: char)
    ensures RemoveChar(a + b, c) == RemoveChar(a, c) + RemoveChar(b, c)
    decreases |a|
  {
    if a != [] {
      var ab := a + b;
      assert ab[0] == a[0] && ab[1..] == a[1..] + b;
      RemoveCharConcat(a[1..], b, c);
      var h := if a[0] == c then [] else [a[0]];
      var x, y := RemoveChar(a[1..], c), RemoveChar(b, c);
      assert RemoveChar(ab, c) == h + RemoveChar(ab[1..], c) == h + (x + y);
      assert RemoveChar(a, c) == h + x;
    } else {
      assert a + b == b;
    }
  }

  /** `re.sub(r'-\s+', '', s)`: a hyphen followed by whitespace is removed
      together with all of that whitespace; a hyphen followed by anything else
      stays. */
  function StripDashBreaks(s: string): (r: string)
    ensures forall c :: c in r ==> c in s
    decreases |s|
  {
    if s == [] then []
    else if s[0] == '-' && |s| > 1 && IsSpace(s[1]) then
      var rest := DropSpaces(s[1..]);
      SuffixChars(s, 1);
      SuffixChars(s[1..], |s[1..]| - |rest|);
      StripDashBreaks(rest)
    else
      SuffixChars(s, 1);
      [s[0]] + StripDashBreaks(s[1..])
  }

  /** A text that does not start with whitespace does not give one that does. */
  lemma {:induction false} DashBreaksStart(s: string)
    requires s == [] || !IsSpace(s[0])
    ensures StripDashBreaks(s) == [] || !IsSpace(StripDashBreaks(s)[0])
    decreases |s|
  {
    if s != [] && s[0] == '-' && |s| > 1 && IsSpace(s[1]) {
      DashBreaksStart(DropSpaces(s[1..]));
    }
  }

  /** The pattern leaves no hyphen followed by whitespace behind. */
  lemma {:induction false} DashBreaksGone(s: string)
    ensures var r := StripDashBreaks(s);
            forall i :: 0 <= i < |r| - 1 ==> !(r[i] == '-' && IsSpace(r[i + 1]))
    decreases |s|
  {
    if s != [] {
      if s[0] == '-' && |s| > 1 && IsSpace(s[1]) {
        DashBreaksGone(DropSpaces(s[1..]));
        assert StripDashBreaks(s) == StripDashBreaks(DropSpaces(s[1..]));
      } else {
        var t := StripDashBreaks(s[1..]);
        DashBreaksGone(s[1..]);
        if s[0] == '-' && t != [] {
          DashBreaksStart(s[1..]);
        }
        var r := [s[0]] + t;
        assert forall i :: 1 <= i < |r| ==> r[i] == t[i - 1];
      }
    }
  }

  /** A text without a hyphen is left alone by the dash pattern. */
  lemma {:induction false} StripDashBreaksIdentity(s: string)
    requires '-' !in s
    ensures StripDashBreaks(s) == s
    decreases |s|
  {
    if s != [] {
      SuffixChars(s, 1);
      StripDashBreaksIdentity(s[1..]);
    }
  }

  /** The six smart characters the cleaner maps to Latin-1. */
  predicate IsSmart(c: char) {
    c == '\U{2019}' || c == '\U{201C}' || c == '\U{201D}' || c == '\U{2013}' || c == '\U{2014}' || c == '\U{2022}'
  }

  /** The smart apostrophe, the two smart quotes, the en dash, the em dash and the
      bullet, replaced in that order by `'`, `"`, `"`, `-`, `--` and `*`. None is
      left, and every other character of the result was already in `s`. */
  function ReplaceSmartPunctuation(s: string): (r: string)
    ensures forall c :: c in r ==> !IsSmart(c) && (c in s || c in "'\"-*")
    ensures '*' in r ==> '*' in s || '\U{2022}' in s
  {
    var t1 := ReplaceAll(s, "\U{2019}", "'");
    var t2 := ReplaceAll(t1, "\U{201C}", "\"");
    var t3 := ReplaceAll(t2, "\U{201D}", "\"");
    var t4 := ReplaceAll(t3, "\U{2013}", "-");
    var t5 := ReplaceAll(t4, "\U{2014}", "--");
    var t6 := ReplaceAll(t5, "\U{2022}", "*");
    StageChars(s, "\U{2019}", "'");
    StageChars(t1, "\U{201C}", "\"");
    StageChars(t2, "\U{201D}", "\"");
    StageChars(t3, "\U{2013}", "-");
    StageChars(t4, "\U{2014}", "--");
    StageChars(t5, "\U{2022}", "*");
    ReplaceAllNewChars(t5, "\U{2022}", "*");
    SmartStages(s, t1, t2, t3, t4, t5, t6);
    t6
  }

  /** Composing the character sets of the six replacement stages. */
  lemma SmartStages(s: string, t1: string, t2: string, t3: string, t4: string, t5: string, t6: string)
    requires Chars(t1) <= (Chars(s) - {'\U{2019}'}) + Chars("'")
    requires Chars(t2) <= (Chars(t1) - {'\U{201C}'}) + Chars("\"")
    requires Chars(t3) <= (Chars(t2) - {'\U{201D}'}) + Chars("\"")
    requires Chars(t4) <= (Chars(t3) - {'\U{2013}'}) + Chars("-")
    requires Chars(t5) <= (Chars(t4) - {'\U{2014}'}) + Chars("--")
    requires Chars(t6) <= (Chars(t5) - {'\U{2022}'}) + Chars("*")
    requires '*' in t6 ==> '*' in t5 || '\U{2022}' in t5
    ensures forall c :: c in t6 ==> !IsSmart(c) && (c in s || c in "'\"-*")
    ensures '*' in t6 ==> '*' in s || '\U{2022}' in s
  {
    forall c | c in t6
      ensures !IsSmart(c) && (c in s || c in "'\"-*")
    {
      assert c in Chars(t6);
    }
    if '*' in t5 {
      assert '*' in Chars(t5);
    } else if '\U{2022}' in t5 {
      assert '\U{2022}' in Chars(t5);
    }
  }

  /** The characters of a text. */
  function Chars(t: string): (r: set<char>)
    ensures forall c :: c in r <==> c in t
  {
    set c | c in t
  }

  /** Replacing a one-character pattern by `rep` removes that character and
      brings in only the characters of `rep`. */
  lemma StageChars(t: string, pat: string, rep: string)
    requires |pat| == 1 && pat[0] !in rep
    ensures Chars(ReplaceAll(t, pat, rep)) <= (Chars(t) - {pat[0]}) + Chars(rep)
  {
    assert pat == [pat[0]];
    ReplaceCharRemoved(t, pat[0], rep);
  }

  /** A text without smart characters is left alone. */
  lemma SmartIdentity(s: string)
    requires forall c :: c in s ==> !IsSmart(c)
    ensures ReplaceSmartPunctuation(s) == s
  {
    ReplaceAllIdentity(s, "\U{2019}", "'");
    ReplaceAllIdentity(s, "\U{201C}", "\"");
    ReplaceAllIdentity(s, "\U{201D}", "\"");
    ReplaceAllIdentity(s, "\U{2013}", "-");
    ReplaceAllIdentity(s, "\U{2014}", "--");
    ReplaceAllIdentity(s, "\U{2022}", "*");
  }

  /** `&amp;`, then `&lt;`, then `&gt;`. */
  function DecodeEntities(s: string): (r: string)
    ensures forall c :: c in r ==> c in s || c in "&<>"
  {
    ReplaceAll(ReplaceAll(ReplaceAll(s, "&amp;", "&"), "&lt;", "<"), "&gt;", ">")
  }

  /** Decoding `&amp;` first lets a double-encoded `&amp;lt;` decode to `<`. */
  lemma DoubleEncodedLessThan()
    ensures DecodeEntities("&amp;lt;") == "<"
  {
    var s := "&amp;lt;";
    assert StartsWith(s, "&amp;");
    assert s[5..] == "lt;";
    ReplaceAllIdentity("lt;", "&amp;", "&");
    assert ReplaceAll(s, "&amp;", "&") == "&lt;";
    assert StartsWith("&lt;", "&lt;");
    assert ReplaceAll("&lt;", "&lt;", "<") == "<";
    ReplaceAllIdentity("<", "&gt;", ">");
  }

  /** A text without `&` is left alone by the entity decoder. */
  lemma EntitiesIdentity(s: string)
    requires '&' !in s
    ensures DecodeEntities(s) == s
  {
    ReplaceAllIdentity(s, "&amp;", "&");
    ReplaceAllIdentity(s, "&lt;", "<");
    ReplaceAllIdentity(s, "&gt;", ">");
  }

  predicate IsLatin1(c: char) {
    c as int < 256
  }

  /** `s.encode('latin-1', 'ignore').decode('latin-1')`: the characters outside
      Latin-1 are dropped and the others kept in order. */
  function Latin1(s: string): (r: string)
    ensures forall i :: 0 <= i < |r| ==> IsLatin1(r[i])
    ensures forall c :: c in r <==> c in s && IsLatin1(c)
  {
    if s == [] then []
    else
      SuffixChars(s, 1);
      (if IsLatin1(s[0]) then [s[0]] else []) + Latin1(s[1..])
  }

  /** A Latin-1 text survives the round trip through the codec unchanged. */
  lemma {:induction false} Latin1Identity(s: string)
    requires forall i :: 0 <= i < |s| ==> IsLatin1(s[i])
    ensures Latin1(s) == s
  {
    if s != [] {
      Latin1Identity(s[1..]);
    }
  }

  /** `clean_text_for_pdf(text)`. */
  function CleanTextForPdf(text: string): string {
    Latin1(DecodeEntities(ReplaceSmartPunctuation(StripDashBreaks(StripEmphasis(StripHeadings(text))))))
  }

  /** The cleaned text is Latin-1 only, holds no `#` and no smart character, and
      holds an asterisk only when the input held a bullet. */
  lemma CleanTextSpec(text: string)
    ensures var r := CleanTextForPdf(text);
            && (forall i :: 0 <= i < |r| ==> IsLatin1(r[i]))
            && '#' !in r
            && (forall c :: c in r ==> !IsSmart(c))
            && ('*' in r ==> '\U{2022}' in text)
  {
    var t1 := StripHeadings(text);
    var t2 := StripEmphasis(t1);
    var t3 := StripDashBreaks(t2);
    var t4 := ReplaceSmartPunctuation(t3);
    var t5 := DecodeEntities(t4);
    var r := Latin1(t5);
    assert '#' !in t2 && '#' !in t3;
  }

  /** Plain ASCII text with none of `#`, `*`, `-` and `&` comes out unchanged. */
  lemma CleanTextPlain(text: string)
    requires forall i :: 0 <= i < |text| ==> text[i] as int < 128
    requires '#' !in text && '*' !in text && '-' !in text && '&' !in text
    ensures CleanTextForPdf(text) == text
  {
    StripHeadingsIdentity(text);
    StripEmphasisRemovesStars(text);
    RemoveCharAbsent(text, '*');
    StripDashBreaksIdentity(text);
    forall c | c in text ensures !IsSmart(c) {
      var i :| 0 <= i < |text| && text[i] == c;
    }
    SmartIdentity(text);
    EntitiesIdentity(text);
    Latin1Identity(text);
  }

  lemma {:induction false} RemoveCharAbsent(s: string, c: char)
    requires c !in s
    ensures RemoveChar(s, c) == s
  {
    if s != [] {
      SuffixChars(s, 1);
      RemoveCharAbsent(s[1..], c);
    }
  }
}

/**
 The service's patterns, and the plain tokenizers they amount to: maximal word runs,
 decimal numerals, and leftmost-longest replacement of sourced text.
 */
module Scanners {
  import opened Text
  import opened Regex

  // ---------------------------------------------------------------------------------
  // The patterns
  // ---------------------------------------------------------------------------------

  const PREFIXES: seq<string> := ["inv", "sess", "u"]

  /** `\b(?:inv|sess|u)_\w+\b` */
  const IDENTIFIER: Regex :=
    Cat(Edge, Cat(AnyOf(PREFIXES, false), Cat(Lit("_", false), Cat(Many(WordClass), Edge))))

  /** `\d+(?:[.,]\d+)?` */
  const NUMBER: Regex := Cat(Many(DigitClass), Opt(Cat(One(SepClass), Many(DigitClass))))

  /** `\b(?:w1|w2|...)\b` */
  function WholeWord(words: seq<string>, fold: bool): Regex
    requires words != []
  {
    Cat(Edge, Cat(AnyOf(words, fold), Edge))
  }

  // ---------------------------------------------------------------------------------
  // The tokenizers
  // ---------------------------------------------------------------------------------

  function RunLen(cls: Class, s: string): (n: nat)
    ensures n <= |s|
    ensures n > 0 <==> s != "" && cls.Has(s[0])
  {
    if s != "" && cls.Has(s[0]) then 1 + RunLen(cls, s[1..]) else 0
  }

  /** The run is maximal and made of its class only. */
  lemma {:induction false} RunLenRun(cls: Class, s: string)
    ensures var n := RunLen(cls, s);
            (forall k :: 0 <= k < n ==> cls.Has(s[k])) && (n < |s| ==> !cls.Has(s[n]))
  {
    if s != "" && cls.Has(s[0]) {
      RunLenRun(cls, s[1..]);
    }
  }

  /** The maximal word runs of `s`, left to right. */
  function Words(s: string): (r: seq<string>)
    decreases |s|
  {
    if s == "" then []
    else if IsWord(s[0]) then
      var n := RunLen(WordClass, s);
      [s[..n]] + Words(s[n..])
    else Words(s[1..])
  }

  function Keep(words: seq<string>, wanted: string -> bool): (r: seq<string>)
    ensures forall w :: w in r <==> w in words && wanted(w)
  {
    if words == [] then []
    else (if wanted(words[0]) then [words[0]] else []) + Keep(words[1..], wanted)
  }

  /** `s` with every wanted word replaced by one space. */
  function BlankWords(s: string, wanted: string -> bool): string
    decreases |s|
  {
    if s == "" then ""
    else if IsWord(s[0]) then
      var n := RunLen(WordClass, s);
      (if wanted(s[..n]) then " " else s[..n]) + BlankWords(s[n..], wanted)
    else [s[0]] + BlankWords(s[1..], wanted)
  }

  /** A word of the shape of a fixture id: `inv_...`, `sess_...` or `u_...`. */
  predicate IsIdentifier(w: string) {
    (forall c :: c in w ==> IsWord(c)) &&
    ((|w| > 4 && w[..4] == "inv_") || (|w| > 5 && w[..5] == "sess_") || (|w| > 2 && w[..2] == "u_"))
  }

  /** The shape, prefix by prefix: something has to follow it. */
  lemma IdentifierShapes(w: string)
    ensures IsIdentifier(w) <==>
            (forall k :: 0 <= k < |w| ==>
              '0' <= w[k] <= '9' || 'a' <= w[k] <= 'z' || 'A' <= w[k] <= 'Z' || w[k] == '_') &&
            exists rest :: rest != "" && (w == "inv_" + rest || w == "sess_" + rest || w == "u_" + rest)
  {
    assert (forall c :: c in w ==> IsWord(c)) <==> forall k :: 0 <= k < |w| ==> IsWord(w[k]) by {
      if forall c :: c in w ==> IsWord(c) {
        forall k | 0 <= k < |w| ensures IsWord(w[k]) { assert w[k] in w; }
      }
    }
    if IsIdentifier(w) {
      var n := if |w| > 4 && w[..4] == "inv_" then 4 else if |w| > 5 && w[..5] == "sess_" then 5 else 2;
      assert w == w[..n] + w[n..];
    }
  }

  function Identifiers(s: string): seq<string> {
    Keep(Words(s), (w: string) => IsIdentifier(w))
  }

  function BlankIdentifiers(s: string): string {
    BlankWords(s, (w: string) => IsIdentifier(w))
  }

  /** Length of the numeral `s` starts with: a digit run, and a separated second run. */
  function NumeralLen(s: string): (n: nat)
    ensures n <= |s|
    ensures (s != "" && IsDigit(s[0])) <==> n > 0
  {
    var whole := RunLen(DigitClass, s);
    if whole > 0 && whole + 1 < |s| && IsSep(s[whole]) && IsDigit(s[whole + 1])
    then whole + 1 + RunLen(DigitClass, s[whole + 1..])
    else whole
  }

  function Numerals(s: string): (r: seq<string>)
    decreases |s|
  {
    if s == "" then []
    else if IsDigit(s[0]) then [s[..NumeralLen(s)]] + Numerals(s[NumeralLen(s)..])
    else Numerals(s[1..])
  }

  /** Length of the longest span that is a prefix of `s` and at most `n` long; -1 if none. */
  function LongestUpTo(s: string, spans: set<string>, n: nat): (r: int)
    requires n <= |s|
    ensures -1 <= r <= n
    ensures r >= 0 ==> s[..r] in spans
    ensures forall k :: r < k <= n ==> s[..k] !in spans
  {
    if s[..n] in spans then n else if n == 0 then -1 else LongestUpTo(s, spans, n - 1)
  }

  function Longest(s: string, spans: set<string>): (r: int)
    ensures -1 <= r <= |s|
    ensures r >= 0 ==> s[..r] in spans
    ensures forall k :: r < k <= |s| ==> s[..k] !in spans
  {
    LongestUpTo(s, spans, |s|)
  }

  /** `s` with sourced spans replaced by one space each: at every position reached, the
      longest span wins. An empty span is inserted wherever nothing longer stands. */
  function Mask(s: string, spans: set<string>): string
    decreases |s|
  {
    var n := Longest(s, spans);
    if n > 0 then " " + Mask(s[n..], spans)
    else (if n == 0 then " " else "") + (if s == "" then "" else [s[0]] + Mask(s[1..], spans))
  }

  // ---------------------------------------------------------------------------------
  // Scanning with a whole-word pattern is filtering the words
  // ---------------------------------------------------------------------------------

  lemma {:induction false} RunEndIsRunLen(cls: Class, s: string, i: nat)
    requires i <= |s|
    ensures RunEnd(cls, s, i) == i + RunLen(cls, s[i..])
    decreases |s| - i
  {
    if i < |s| && cls.Has(s[i]) {
      RunEndIsRunLen(cls, s, i + 1);
      assert s[i..][1..] == s[i + 1..];
    }
  }

  predicate WordStart(s: string, i: nat)
    requires i <= |s|
  {
    i < |s| && IsWord(s[i]) && (i == 0 || !IsWord(s[i - 1]))
  }

  /** What the pattern matches at `i` if it matches exactly the wanted words. */
  function WordMatch(s: string, i: nat, wanted: string -> bool): Found
    requires i <= |s|
  {
    var e := RunEnd(WordClass, s, i);
    if WordStart(s, i) && wanted(s[i..e]) then Hit(e) else Miss
  }

  ghost predicate MatchesWords(re: Regex, wanted: string -> bool) {
    forall s: string, i: nat :: i <= |s| ==> MatchAt(re, s, i, false) == WordMatch(s, i, wanted)
  }

  predicate MidWord(s: string, p: nat)
    requires p <= |s|
  {
    0 < p < |s| && IsWord(s[p - 1]) && IsWord(s[p])
  }

  lemma CutInTwo(s: string, low: nat, m: nat, high: nat)
    requires low <= m <= high <= |s|
    ensures s[low..high] == s[low..m] + s[m..high]
  {
  }

  lemma FrontMoves(whole: string, a: string, b: string, tail: string)
    requires whole == a + b
    ensures whole + " " + tail == a + (b + " " + tail)
  {
  }

  lemma BlankCons(s: string, spans: seq<Span>, low: nat, start: nat, tail: string)
    requires spans != [] && InOrder(spans, low, |s|) && start == spans[0].start
    requires tail == Blank(s, spans[1..], spans[0].end)
    ensures low <= start <= |s| && Blank(s, spans, low) == s[low..start] + " " + tail
  {
  }

  lemma BlankSkips(s: string, spans: seq<Span>, low: nat, m: nat)
    requires low <= m && InOrder(spans, m, |s|)
    ensures InOrder(spans, low, |s|)
    ensures Blank(s, spans, low) == s[low..m] + Blank(s, spans, m)
    ensures Texts(s, spans, low) == Texts(s, spans, m)
  {
    if spans == [] {
      CutInTwo(s, low, m, |s|);
    } else {
      var start, tail := spans[0].start, Blank(s, spans[1..], spans[0].end);
      BlankCons(s, spans, low, start, tail);
      BlankCons(s, spans, m, start, tail);
      CutInTwo(s, low, m, start);
      FrontMoves(s[low..start], s[low..m], s[m..start], tail);
    }
  }

  /** Inside a word nothing matches, so the scan runs on to its end. */
  lemma {:induction false} ScanLeavesWord(re: Regex, wanted: string -> bool, s: string, p: nat, e: nat)
    requires MatchesWords(re, wanted)
    requires 0 < p <= e <= |s| && forall k :: p - 1 <= k < e ==> IsWord(s[k])
    ensures Spans(re, s, p, false) == Spans(re, s, e, false)
    decreases e - p
  {
    if p == e {
    } else {
      assert MatchAt(re, s, p, false) == Miss;
      ScanLeavesWord(re, wanted, s, p + 1, e);
    }
  }

  lemma WordSplit(t: string, n: nat, wanted: string -> bool)
    requires t != "" && IsWord(t[0]) && n == RunLen(WordClass, t)
    ensures 0 < n && Words(t) == [t[..n]] + Words(t[n..])
    ensures BlankWords(t, wanted) == (if wanted(t[..n]) then " " else t[..n]) + BlankWords(t[n..], wanted)
  {
  }

  lemma SliceOfSuffix(s: string, p: nat, n: nat)
    requires p + n <= |s|
    ensures s[p..][..n] == s[p..p + n] && s[p..][n..] == s[p + n..]
  {
  }

  /** The tokenizer at a word takes the whole run. */
  lemma WordStep(s: string, p: nat, e: nat, wanted: string -> bool)
    requires p < |s| && IsWord(s[p]) && e == RunEnd(WordClass, s, p)
    ensures p < e
    ensures Words(s[p..]) == [s[p..e]] + Words(s[e..])
    ensures BlankWords(s[p..], wanted) == (if wanted(s[p..e]) then " " else s[p..e]) + BlankWords(s[e..], wanted)
  {
    RunEndIsRunLen(WordClass, s, p);
    var t := s[p..];
    var word, rest := t[..e - p], t[e - p..];
    assert word == s[p..e] && rest == s[e..] by { SliceOfSuffix(s, p, e - p); }
    WordSplit(t, e - p, wanted);
  }

  lemma OtherStep(s: string, p: nat, wanted: string -> bool)
    requires p < |s| && !IsWord(s[p])
    ensures Words(s[p..]) == Words(s[p + 1..])
    ensures BlankWords(s[p..], wanted) == [s[p]] + BlankWords(s[p + 1..], wanted)
  {
    assert s[p..][1..] == s[p + 1..];
  }

  /** One hit at the front of a scan. */
  lemma HitStep(re: Regex, s: string, p: nat, e: nat)
    requires p < e <= |s| && MatchAt(re, s, p, false) == Hit(e)
    ensures var rest := Spans(re, s, e, false);
            Texts(s, Spans(re, s, p, false), p) == [s[p..e]] + Texts(s, rest, e) &&
            Blank(s, Spans(re, s, p, false), p) == " " + Blank(s, rest, e)
  {
    var rest := Spans(re, s, e, false);
    ScanStep(re, s, p, false, Hit(e));
    BlankFirst(s, Span(p, e), rest, p);
    TextsFirst(s, Span(p, e), rest, p);
    assert s[p..p] == "";
  }

  /** A stretch without hits at the front of a scan. */
  lemma SkipStep(re: Regex, s: string, p: nat, e: nat)
    requires p <= e <= |s| && Spans(re, s, p, false) == Spans(re, s, e, false)
    ensures var rest := Spans(re, s, e, false);
            Texts(s, Spans(re, s, p, false), p) == Texts(s, rest, e) &&
            Blank(s, Spans(re, s, p, false), p) == s[p..e] + Blank(s, rest, e)
  {
    BlankSkips(s, Spans(re, s, e, false), p, e);
  }

  lemma KeepSplit(first: string, rest: seq<string>, wanted: string -> bool)
    ensures Keep([first] + rest, wanted) == (if wanted(first) then [first] else []) + Keep(rest, wanted)
  {
    assert ([first] + rest)[1..] == rest;
  }

  /** From `p` on, the regex scan and the filtered tokenizer agree. */
  ghost predicate ScanAgrees(re: Regex, wanted: string -> bool, s: string, p: nat)
    requires p <= |s|
  {
    Texts(s, Spans(re, s, p, false), p) == Keep(Words(s[p..]), wanted) &&
    Blank(s, Spans(re, s, p, false), p) == BlankWords(s[p..], wanted)
  }

  lemma ScanWantedWord(re: Regex, wanted: string -> bool, s: string, p: nat, e: nat)
    requires p < |s| && IsWord(s[p]) && e == RunEnd(WordClass, s, p) && p < e
    requires wanted(s[p..e]) && MatchAt(re, s, p, false) == Hit(e)
    requires ScanAgrees(re, wanted, s, e)
    ensures ScanAgrees(re, wanted, s, p)
  {
    var word := s[p..e];
    WordStep(s, p, e, wanted);
    assert Keep(Words(s[p..]), wanted) == [word] + Keep(Words(s[e..]), wanted) by {
      KeepSplit(word, Words(s[e..]), wanted);
    }
    HitStep(re, s, p, e);
  }

  lemma ScanOtherWord(re: Regex, wanted: string -> bool, s: string, p: nat, e: nat)
    requires p < |s| && IsWord(s[p]) && e == RunEnd(WordClass, s, p) && p < e
    requires !wanted(s[p..e]) && Spans(re, s, p, false) == Spans(re, s, e, false)
    requires ScanAgrees(re, wanted, s, e)
    ensures ScanAgrees(re, wanted, s, p)
  {
    var word := s[p..e];
    WordStep(s, p, e, wanted);
    assert Keep(Words(s[p..]), wanted) == Keep(Words(s[e..]), wanted) by {
      KeepSplit(word, Words(s[e..]), wanted);
    }
    SkipStep(re, s, p, e);
  }

  lemma ScanOther(re: Regex, wanted: string -> bool, s: string, p: nat)
    requires p < |s| && !IsWord(s[p]) && MatchAt(re, s, p, false) == Miss
    requires ScanAgrees(re, wanted, s, p + 1)
    ensures ScanAgrees(re, wanted, s, p)
  {
    OtherStep(s, p, wanted);
    SkipStep(re, s, p, p + 1);
    assert s[p..p + 1] == [s[p]];
  }

  lemma ScanEnd(re: Regex, wanted: string -> bool, s: string)
    requires MatchAt(re, s, |s|, false) == Miss
    ensures ScanAgrees(re, wanted, s, |s|)
  {
    assert s[|s|..] == "";
  }

  lemma {:induction false} WordScan(re: Regex, wanted: string -> bool, s: string, p: nat)
    requires MatchesWords(re, wanted)
    requires p <= |s| && !MidWord(s, p)
    ensures ScanAgrees(re, wanted, s, p)
    decreases |s| - p
  {
    assert MatchAt(re, s, p, false) == WordMatch(s, p, wanted);
    if p == |s| {
      ScanEnd(re, wanted, s);
    } else {
      if !IsWord(s[p]) {
        WordScan(re, wanted, s, p + 1);
        ScanOther(re, wanted, s, p);
      } else {
        var e := RunEnd(WordClass, s, p);
        assert p < e;
        WordScan(re, wanted, s, e);
        if wanted(s[p..e]) {
          ScanWantedWord(re, wanted, s, p, e);
        } else {
          ScanLeavesWord(re, wanted, s, p + 1, e);
          ScanOtherWord(re, wanted, s, p, e);
        }
      }
    }
  }

  lemma WholeScan(re: Regex, wanted: string -> bool, s: string)
    requires MatchesWords(re, wanted)
    ensures FindAll(re, s) == Keep(Words(s), wanted)
    ensures Sub(re, s) == BlankWords(s, wanted)
  {
    WordScan(re, wanted, s, 0);
    assert s[0..] == s;
  }

  // ---------------------------------------------------------------------------------
  // The identifier, status and keyword patterns match whole words
  // ---------------------------------------------------------------------------------

  lemma {:induction false} InEndsAfter(re: Regex, s: string, starts: seq<nat>, low: nat, e: nat)
    requires forall m :: m in starts ==> low <= m <= |s|
    ensures e in EndsAfter(re, s, starts, low) <==> exists m :: m in starts && e in Ends(re, s, m)
  {
    if starts == [] {
    } else {
      assert starts[0] in starts && forall m :: m in starts <==> m == starts[0] || m in starts[1..];
      InEndsAfter(re, s, starts[1..], low, e);
    }
  }

  lemma InCat(a: Regex, b: Regex, s: string, i: nat, e: nat)
    requires i <= |s|
    ensures e in Ends(Cat(a, b), s, i) <==> exists m :: m in Ends(a, s, i) && e in Ends(b, s, m)
  {
    InEndsAfter(b, s, Ends(a, s, i), i, e);
  }

  lemma InEdgeThen(re: Regex, s: string, i: nat, e: nat)
    requires i <= |s|
    ensures e in Ends(Cat(Edge, re), s, i) <==> AtEdge(s, i) && e in Ends(re, s, i)
  {
    InCat(Edge, re, s, i, e);
    assert forall m :: m in Ends(Edge, s, i) <==> m == i && AtEdge(s, i);
  }

  lemma InThenEdge(re: Regex, s: string, i: nat, e: nat)
    requires i <= |s|
    ensures e in Ends(Cat(re, Edge), s, i) <==> e <= |s| && e in Ends(re, s, i) && AtEdge(s, e)
  {
    InCat(re, Edge, s, i, e);
    forall m | m in Ends(re, s, i) ensures e in Ends(Edge, s, m) <==> e == m && AtEdge(s, m) {
    }
  }

  /** A pattern with a single possible end at `i` matches there. */
  lemma OneEnd(re: Regex, s: string, i: nat, end: Found)
    requires i <= |s|
    requires forall e :: e in Ends(re, s, i) <==> end == Hit(e)
    ensures MatchAt(re, s, i, false) == end
  {
    var m := MatchAt(re, s, i, false);
    assert end.Hit? ==> end.end in Ends(re, s, i);
  }

  lemma LowerKeepsWord(c: char)
    ensures IsWord(Lower(c)) <==> IsWord(c)
  {
  }

  /** A run of word characters between two edges is a whole word. */
  lemma EdgesDelimitWord(s: string, i: nat, e: nat)
    requires i < e <= |s| && forall k :: i <= k < e ==> IsWord(s[k])
    ensures AtEdge(s, i) && AtEdge(s, e) <==> WordStart(s, i) && e == RunEnd(WordClass, s, i)
  {
    var r := RunEnd(WordClass, s, i);
    assert e <= r;
  }

  predicate WordsOnly(words: seq<string>) {
    forall w | w in words :: w != "" && forall c | c in w :: IsWord(c)
  }

  /** `w` is one of `words`, ignoring case if `fold`. */
  predicate IsOneOf(words: seq<string>, fold: bool, w: string) {
    exists v | v in words :: |v| == |w| && if fold then LowerAll(w) == LowerAll(v) else w == v
  }

  lemma LitAtIsWord(w: string, fold: bool, s: string, i: nat)
    requires LitAt(w, fold, s, i) && forall c :: c in w ==> IsWord(c)
    ensures forall k :: i <= k < i + |w| ==> IsWord(s[k])
  {
    forall k | i <= k < i + |w| ensures IsWord(s[k]) {
      var t := s[i..i + |w|];
      assert t[k - i] == s[k] && w[k - i] in w;
      LowerKeepsWord(s[k]);
      LowerKeepsWord(w[k - i]);
      if fold { assert LowerAll(t)[k - i] == LowerAll(w)[k - i]; }
    }
  }

  lemma InWholeWord(words: seq<string>, fold: bool, s: string, i: nat, e: nat)
    requires words != [] && i <= |s|
    ensures e in Ends(WholeWord(words, fold), s, i) <==>
            e <= |s| && AtEdge(s, i) && AtEdge(s, e) &&
            exists w :: w in words && LitAt(w, fold, s, i) && e == i + |w|
  {
    InEdgeThen(Cat(AnyOf(words, fold), Edge), s, i, e);
    InThenEdge(AnyOf(words, fold), s, i, e);
    AnyOfEnds(words, fold, s, i, e);
  }

  lemma EndIsWord(words: seq<string>, fold: bool, s: string, i: nat, e: nat)
    requires words != [] && WordsOnly(words) && i <= |s| && e in Ends(WholeWord(words, fold), s, i)
    ensures WordMatch(s, i, (w: string) => IsOneOf(words, fold, w)) == Hit(e)
  {
    InWholeWord(words, fold, s, i, e);
    var w :| w in words && LitAt(w, fold, s, i) && e == i + |w|;
    LitAtIsWord(w, fold, s, i);
    EdgesDelimitWord(s, i, e);
    assert IsOneOf(words, fold, s[i..e]);
  }

  lemma WordIsEnd(words: seq<string>, fold: bool, s: string, i: nat, e: nat)
    requires words != [] && WordsOnly(words) && i <= |s|
    requires WordMatch(s, i, (w: string) => IsOneOf(words, fold, w)) == Hit(e)
    ensures e in Ends(WholeWord(words, fold), s, i)
  {
    InWholeWord(words, fold, s, i, e);
    EdgesDelimitWord(s, i, e);
    var t := s[i..e];
    var w :| w in words && |w| == |t| && if fold then LowerAll(t) == LowerAll(w) else t == w;
    assert LitAt(w, fold, s, i);
  }

  /** The whole-word alternation finds exactly the maximal words in the vocabulary. */
  lemma WholeWordMatchesWords(words: seq<string>, fold: bool)
    requires words != [] && WordsOnly(words)
    ensures MatchesWords(WholeWord(words, fold), (w: string) => IsOneOf(words, fold, w))
  {
    var re := WholeWord(words, fold);
    var wanted := (w: string) => IsOneOf(words, fold, w);
    forall s: string, i: nat | i <= |s| ensures MatchAt(re, s, i, false) == WordMatch(s, i, wanted) {
      var end := WordMatch(s, i, wanted);
      forall e: nat ensures e in Ends(re, s, i) <==> end == Hit(e) {
        if e in Ends(re, s, i) { EndIsWord(words, fold, s, i, e); }
        if end == Hit(e) { WordIsEnd(words, fold, s, i, e); }
      }
      OneEnd(re, s, i, end);
    }
  }

  /** An underscore at `m`, then at least one word character, up to the edge at `e`. */
  predicate IdentifierTail(s: string, m: nat, e: nat) {
    m < |s| && s[m] == '_' && m + 2 <= e <= RunEnd(WordClass, s, m + 1) && AtEdge(s, e)
  }

  lemma UnderscoreEnds(s: string, m: nat, e: nat)
    requires m <= |s|
    ensures e in Ends(Lit("_", false), s, m) <==> e == m + 1 && m < |s| && s[m] == '_'
  {
    if m < |s| { assert s[m..m + 1] == [s[m]]; }
  }

  lemma InIdentifierTail(s: string, m: nat, e: nat)
    requires m <= |s|
    ensures e in Ends(Cat(Lit("_", false), Cat(Many(WordClass), Edge)), s, m) <==> IdentifierTail(s, m, e)
  {
    InCat(Lit("_", false), Cat(Many(WordClass), Edge), s, m, e);
    forall k: nat ensures k in Ends(Lit("_", false), s, m) <==> k == m + 1 && m < |s| && s[m] == '_' {
      UnderscoreEnds(s, m, k);
    }
    if m < |s| {
      InThenEdge(Many(WordClass), s, m + 1, e);
    }
  }

  /** A token starts with prefix `w` and an underscore, and goes on. */
  predicate HasPrefix(w: string, t: string) {
    |t| > |w| + 1 && t[..|w|] == w && t[|w|] == '_'
  }

  lemma IdentifierByPrefix(t: string)
    requires forall c :: c in t ==> IsWord(c)
    ensures IsIdentifier(t) <==> exists w :: w in PREFIXES && HasPrefix(w, t)
  {
    assert "inv" in PREFIXES && "sess" in PREFIXES && "u" in PREFIXES;
    assert HasPrefix("inv", t) <==> |t| > 4 && t[..4] == "inv_" by {
      if |t| > 4 { assert t[..4] == t[..3] + [t[3]]; }
    }
    assert HasPrefix("sess", t) <==> |t| > 5 && t[..5] == "sess_" by {
      if |t| > 5 { assert t[..5] == t[..4] + [t[4]]; }
    }
    assert HasPrefix("u", t) <==> |t| > 2 && t[..2] == "u_" by {
      if |t| > 2 { assert t[..2] == t[..1] + [t[1]]; }
    }
    assert forall w :: w in PREFIXES ==> w == "inv" || w == "sess" || w == "u";
  }

  /** What an identifier match through prefix `w` is, character by character. */
  predicate IdentifierVia(w: string, s: string, i: nat, e: nat) {
    LitAt(w, false, s, i) && IdentifierTail(s, i + |w|, e)
  }

  ghost predicate IdentifierAt(s: string, i: nat, e: nat)
    requires i <= |s|
  {
    AtEdge(s, i) && exists w :: w in PREFIXES && IdentifierVia(w, s, i, e)
  }

  lemma InIdentifierBody(s: string, i: nat, e: nat)
    requires i <= |s|
    ensures e in Ends(IDENTIFIER, s, i) <==>
            AtEdge(s, i) && exists m :: m in Ends(AnyOf(PREFIXES, false), s, i) && IdentifierTail(s, m, e)
  {
    var tail := Cat(Lit("_", false), Cat(Many(WordClass), Edge));
    InEdgeThen(Cat(AnyOf(PREFIXES, false), tail), s, i, e);
    InCat(AnyOf(PREFIXES, false), tail, s, i, e);
    forall m: nat | m in Ends(AnyOf(PREFIXES, false), s, i)
      ensures e in Ends(tail, s, m) <==> IdentifierTail(s, m, e)
    {
      InIdentifierTail(s, m, e);
    }
  }

  lemma PrefixEnds(s: string, i: nat, e: nat)
    requires i <= |s|
    ensures (exists m :: m in Ends(AnyOf(PREFIXES, false), s, i) && IdentifierTail(s, m, e)) <==>
            (exists w :: w in PREFIXES && IdentifierVia(w, s, i, e))
  {
    var re := AnyOf(PREFIXES, false);
    forall m: nat ensures m in Ends(re, s, i) <==> exists w :: w in PREFIXES && LitAt(w, false, s, i) && m == i + |w| {
      AnyOfEnds(PREFIXES, false, s, i, m);
    }
    if exists w :: w in PREFIXES && IdentifierVia(w, s, i, e) {
      var w :| w in PREFIXES && IdentifierVia(w, s, i, e);
      assert i + |w| in Ends(re, s, i);
    }
  }

  lemma InIdentifier(s: string, i: nat, e: nat)
    requires i <= |s|
    ensures e in Ends(IDENTIFIER, s, i) <==> IdentifierAt(s, i, e)
  {
    InIdentifierBody(s, i, e);
    PrefixEnds(s, i, e);
  }

  lemma PrefixesAreWords(w: string)
    requires w in PREFIXES
    ensures forall c :: c in w ==> IsWord(c)
  {
    assert w == "inv" || w == "sess" || w == "u";
  }

  lemma ViaIsPrefixedWord(w: string, s: string, i: nat, e: nat)
    requires i <= |s| && IdentifierVia(w, s, i, e) && forall c :: c in w ==> IsWord(c)
    ensures i < e <= |s| && forall k :: i <= k < e ==> IsWord(s[k])
    ensures HasPrefix(w, s[i..e])
  {
    LitAtIsWord(w, false, s, i);
    assert s[i..e][..|w|] == s[i..i + |w|];
  }

  lemma IdentifierAtIsWord(s: string, i: nat, e: nat)
    requires i <= |s| && IdentifierAt(s, i, e)
    ensures WordMatch(s, i, (w: string) => IsIdentifier(w)) == Hit(e)
  {
    var w :| w in PREFIXES && IdentifierVia(w, s, i, e);
    PrefixesAreWords(w);
    ViaIsPrefixedWord(w, s, i, e);
    EdgesDelimitWord(s, i, e);
    IdentifierByPrefix(s[i..e]);
  }

  lemma WordIsIdentifierAt(s: string, i: nat, e: nat)
    requires i <= |s| && WordMatch(s, i, (w: string) => IsIdentifier(w)) == Hit(e)
    ensures IdentifierAt(s, i, e)
  {
    EdgesDelimitWord(s, i, e);
    var t := s[i..e];
    IdentifierByPrefix(t);
    var w :| w in PREFIXES && HasPrefix(w, t);
    assert t[..|w|] == s[i..i + |w|];
    assert t[|w|] == s[i + |w|];
    assert forall k :: i <= k < e ==> IsWord(s[k]);
    assert e <= RunEnd(WordClass, s, i + |w| + 1);
    assert IdentifierVia(w, s, i, e);
  }

  /** The identifier pattern finds exactly the identifier-shaped words. */
  lemma IdentifierMatchesWords()
    ensures MatchesWords(IDENTIFIER, (w: string) => IsIdentifier(w))
  {
    var wanted := (w: string) => IsIdentifier(w);
    forall s: string, i: nat | i <= |s| ensures MatchAt(IDENTIFIER, s, i, false) == WordMatch(s, i, wanted) {
      forall e: nat ensures e in Ends(IDENTIFIER, s, i) <==> WordMatch(s, i, wanted) == Hit(e) {
        InIdentifier(s, i, e);
        if IdentifierAt(s, i, e) { IdentifierAtIsWord(s, i, e); }
        if WordMatch(s, i, wanted) == Hit(e) { WordIsIdentifierAt(s, i, e); }
      }
      OneEnd(IDENTIFIER, s, i, WordMatch(s, i, wanted));
    }
  }

  // ---------------------------------------------------------------------------------
  // The number pattern finds the numerals
  // ---------------------------------------------------------------------------------

  const FRACTION: Regex := Cat(One(SepClass), Many(DigitClass))

  lemma FractionEnds(s: string, e: nat)
    requires e <= |s|
    ensures var fits := e + 1 < |s| && IsSep(s[e]) && IsDigit(s[e + 1]);
            var ends := Ends(FRACTION, s, e);
            if fits then ends != [] && ends[0] == RunEnd(DigitClass, s, e + 1) else ends == []
  {
    if e < |s| && IsSep(s[e]) {
      var starts := [e + 1];
      assert Ends(One(SepClass), s, e) == starts;
      assert starts[1..] == [];
      assert EndsAfter(Many(DigitClass), s, starts, e) == Ends(Many(DigitClass), s, e + 1) + [];
    } else {
      assert Ends(One(SepClass), s, e) == [];
    }
  }

  /** The first end the number pattern tries is the greedy one. */
  lemma NumberEnds(s: string, i: nat)
    requires i < |s| && IsDigit(s[i])
    ensures var e := RunEnd(DigitClass, s, i);
            var ends := Ends(NUMBER, s, i);
            ends != [] &&
            ends[0] == if e + 1 < |s| && IsSep(s[e]) && IsDigit(s[e + 1]) then RunEnd(DigitClass, s, e + 1) else e
  {
    var e := RunEnd(DigitClass, s, i);
    FractionEnds(s, e);
    var starts := Down(e, i + 1);
    var head := Ends(Opt(FRACTION), s, e);
    assert head == Ends(FRACTION, s, e) + [e];
    assert Ends(Many(DigitClass), s, i) == starts;
    assert Ends(NUMBER, s, i) == EndsAfter(Opt(FRACTION), s, starts, i);
    assert EndsAfter(Opt(FRACTION), s, starts, i) == head + EndsAfter(Opt(FRACTION), s, starts[1..], i);
  }

  lemma NumeralLenAt(s: string, i: nat)
    requires i < |s| && IsDigit(s[i])
    ensures var e := RunEnd(DigitClass, s, i);
            i + NumeralLen(s[i..]) ==
            if e + 1 < |s| && IsSep(s[e]) && IsDigit(s[e + 1]) then RunEnd(DigitClass, s, e + 1) else e
  {
    RunEndIsRunLen(DigitClass, s, i);
    var e := RunEnd(DigitClass, s, i);
    var t := s[i..];
    var whole := e - i;
    assert RunLen(DigitClass, t) == whole;
    if e + 1 < |s| {
      var rest := t[whole + 1..];
      assert t[whole] == s[e] && t[whole + 1] == s[e + 1];
      RunEndIsRunLen(DigitClass, s, e + 1);
      assert rest == s[e + 1..];
    }
  }

  lemma NumberMatch(s: string, i: nat)
    requires i <= |s|
    ensures MatchAt(NUMBER, s, i, false) ==
            if i < |s| && IsDigit(s[i]) then Hit(i + NumeralLen(s[i..])) else Miss
  {
    if i < |s| && IsDigit(s[i]) {
      NumberEnds(s, i);
      NumeralLenAt(s, i);
    } else {
      assert RunEnd(DigitClass, s, i) == i;
      assert Ends(Many(DigitClass), s, i) == [];
      assert Ends(NUMBER, s, i) == [];
    }
  }

  lemma NumeralStep(s: string, p: nat, e: nat)
    requires p < |s| && IsDigit(s[p]) && e == p + NumeralLen(s[p..])
    ensures p < e <= |s| && Numerals(s[p..]) == [s[p..e]] + Numerals(s[e..])
  {
    var t := s[p..];
    var numeral, rest := t[..e - p], t[e - p..];
    assert numeral == s[p..e] && rest == s[e..] by { SliceOfSuffix(s, p, e - p); }
    assert Numerals(t) == [numeral] + Numerals(rest);
  }

  lemma ScanNumeral(s: string, p: nat, e: nat)
    requires p < |s| && IsDigit(s[p]) && e == p + NumeralLen(s[p..]) && p < e
    requires MatchAt(NUMBER, s, p, false) == Hit(e)
    requires Texts(s, Spans(NUMBER, s, e, false), e) == Numerals(s[e..])
    ensures Texts(s, Spans(NUMBER, s, p, false), p) == Numerals(s[p..])
  {
    NumeralStep(s, p, e);
    HitStep(NUMBER, s, p, e);
  }

  lemma ScanNonDigit(s: string, p: nat)
    requires p < |s| && !IsDigit(s[p]) && MatchAt(NUMBER, s, p, false) == Miss
    requires Texts(s, Spans(NUMBER, s, p + 1, false), p + 1) == Numerals(s[p + 1..])
    ensures Texts(s, Spans(NUMBER, s, p, false), p) == Numerals(s[p..])
  {
    SkipStep(NUMBER, s, p, p + 1);
    var t := s[p..];
    assert t[1..] == s[p + 1..] && !IsDigit(t[0]);
    assert Numerals(t) == Numerals(t[1..]);
  }

  lemma {:induction false} NumberScan(s: string, p: nat)
    requires p <= |s|
    ensures Texts(s, Spans(NUMBER, s, p, false), p) == Numerals(s[p..])
    decreases |s| - p
  {
    NumberMatch(s, p);
    if p == |s| {
    } else {
      if IsDigit(s[p]) {
        var e := p + NumeralLen(s[p..]);
        NumberScan(s, e);
        ScanNumeral(s, p, e);
      } else {
        NumberScan(s, p + 1);
        ScanNonDigit(s, p);
      }
    }
  }

  /** `findall` with the number pattern is splitting off numerals left to right. */
  lemma NumberFindsNumerals(s: string)
    ensures FindAll(NUMBER, s) == Numerals(s)
  {
    NumberScan(s, 0);
    assert s[0..] == s;
  }

  // ---------------------------------------------------------------------------------
  // Masking
  // ---------------------------------------------------------------------------------

  /** An alternation in which no word comes before a longer one. */
  ghost predicate LongestFirst(order: seq<string>, words: set<string>) {
    (forall w :: w in order <==> w in words) &&
    forall i, j :: 0 <= i < j < |order| ==> |order[i]| >= |order[j]|
  }

  lemma {:induction false} FirstOfLongestFirst(order: seq<string>, s: string, i: nat)
    requires order != [] && i <= |s|
    requires forall k, l :: 0 <= k < l < |order| ==> |order[k]| >= |order[l]|
    ensures var m := FirstFrom(Ends(AnyOf(order, false), s, i), i);
            (forall w :: w in order && LitAt(w, false, s, i) ==> m.Hit? && |w| <= m.end - i) &&
            (m.Hit? ==> exists w :: w in order && LitAt(w, false, s, i) && m.end == i + |w|)
  {
    var head := order[0];
    assert head in order;
    var first := Ends(Lit(head, false), s, i);
    if |order| > 1 {
      var rest := order[1..];
      assert Ends(AnyOf(order, false), s, i) == first + Ends(AnyOf(rest, false), s, i);
      assert forall w :: w in order <==> w == head || w in rest;
      if !LitAt(head, false, s, i) {
        FirstOfLongestFirst(rest, s, i);
        assert first + Ends(AnyOf(rest, false), s, i) == Ends(AnyOf(rest, false), s, i);
      }
    } else {
      assert Ends(AnyOf(order, false), s, i) == first;
      assert forall w :: w in order ==> w == head;
    }
    if LitAt(head, false, s, i) {
      assert first[0] == i + |head|;
      forall w | w in order ensures |w| <= |head| {
        var k :| 0 <= k < |order| && order[k] == w;
      }
    }
  }

  lemma MaskMatch(order: seq<string>, spans: set<string>, s: string, i: nat)
    requires spans != {} && LongestFirst(order, spans) && i <= |s|
    ensures order != []
    ensures var n := Longest(s[i..], spans);
            MatchAt(AnyOf(order, false), s, i, false) == (if n >= 0 then Hit(i + n) else Miss) &&
            (n == 0 ==> MatchAt(AnyOf(order, false), s, i, true) == Miss)
  {
    var x :| x in spans;
    assert x in order;
    FirstOfLongestFirst(order, s, i);
    var t := s[i..];
    var n := Longest(t, spans);
    if n >= 0 {
      assert s[i..i + n] == t[..n];
      assert LitAt(t[..n], false, s, i);
    }
    forall w | w in order && LitAt(w, false, s, i) ensures |w| <= n {
      assert t[..|w|] == s[i..i + |w|] == w;
    }
    if n == 0 {
      OnlyEmptyMatch(order, s, i);
    }
  }

  lemma OnlyEmptyMatch(order: seq<string>, s: string, i: nat)
    requires order != [] && i <= |s| && forall w :: w in order && LitAt(w, false, s, i) ==> |w| <= 0
    ensures MatchAt(AnyOf(order, false), s, i, true) == Miss
  {
    forall e | e in Ends(AnyOf(order, false), s, i) ensures e < i + 1 {
      AnyOfEnds(order, false, s, i, e);
    }
  }

  lemma EmptyInFront(none: string, one: string, c: char, tail: string)
    requires none == "" && one == [c]
    ensures none + " " + (one + tail) == " " + [c] + tail
  {
  }

  lemma BlankOfEmpty(s: string, rest: seq<Span>, p: nat, spans: seq<Span>, tail: string)
    requires p < |s| && InOrder(rest, p + 1, |s|) && spans == [Span(p, p)] + rest && InOrder(spans, p, |s|)
    requires tail == Blank(s, rest, p + 1)
    ensures Blank(s, spans, p) == " " + [s[p]] + tail
  {
    BlankFirst(s, Span(p, p), rest, p);
    BlankSkips(s, rest, p, p + 1);
    EmptyInFront(s[p..p], s[p..p + 1], s[p], tail);
  }

  /** An empty match at the front of a scan is followed by one copied character. */
  lemma EmptyHitStep(re: Regex, s: string, p: nat)
    requires p < |s| && MatchAt(re, s, p, false) == Hit(p) && MatchAt(re, s, p, true) == Miss
    ensures Blank(s, Spans(re, s, p, false), p) == " " + [s[p]] + Blank(s, Spans(re, s, p + 1, false), p + 1)
  {
    ScanStep(re, s, p, false, Hit(p));
    ScanStep(re, s, p, true, Miss);
    var rest := Spans(re, s, p + 1, false);
    BlankOfEmpty(s, rest, p, Spans(re, s, p, false), Blank(s, rest, p + 1));
  }

  /** What a pattern that matches exactly the longest span at a position finds there. */
  function SpanMatch(s: string, i: nat, spans: set<string>): Found
    requires i <= |s|
  {
    var n := Longest(s[i..], spans);
    if n >= 0 then Hit(i + n) else Miss
  }

  ghost predicate MatchesSpans(re: Regex, spans: set<string>) {
    forall s: string, i: nat :: i <= |s| ==>
      MatchAt(re, s, i, false) == SpanMatch(s, i, spans) &&
      (SpanMatch(s, i, spans) == Hit(i) ==> MatchAt(re, s, i, true) == Miss)
  }

  lemma LongestFirstMatchesSpans(order: seq<string>, spans: set<string>)
    requires spans != {} && LongestFirst(order, spans) && order != []
    ensures MatchesSpans(AnyOf(order, false), spans)
  {
    var re := AnyOf(order, false);
    forall s: string, i: nat | i <= |s|
      ensures MatchAt(re, s, i, false) == SpanMatch(s, i, spans)
      ensures SpanMatch(s, i, spans) == Hit(i) ==> MatchAt(re, s, i, true) == Miss
    {
      MaskMatch(order, spans, s, i);
    }
  }

  /** What masking writes at `p`, and where it goes on. */
  function FrontAt(s: string, spans: set<string>, p: nat): string
    requires p <= |s|
  {
    var n := Longest(s[p..], spans);
    if n > 0 then " " else if n == 0 then (if p < |s| then " " + [s[p]] else " ") else if p < |s| then [s[p]] else ""
  }

  function NextAt(s: string, spans: set<string>, p: nat): (next: nat)
    requires p <= |s|
    ensures p < next
  {
    var n := Longest(s[p..], spans);
    if n > 0 then p + n else p + 1
  }

  /** `out(p)` is what masking writes at `p`, followed by `out` where it goes on. */
  ghost predicate GoesBySteps(s: string, spans: set<string>, out: nat -> string, p: nat)
    requires p <= |s|
  {
    out(p) == FrontAt(s, spans, p) + if NextAt(s, spans, p) <= |s| then out(NextAt(s, spans, p)) else ""
  }

  /** Two texts written by the same steps are the same. */
  lemma {:induction false} SameSteps(s: string, spans: set<string>, a: nat -> string, b: nat -> string, p: nat)
    requires p <= |s| && forall q: nat :: q <= |s| ==> GoesBySteps(s, spans, a, q) && GoesBySteps(s, spans, b, q)
    ensures a(p) == b(p)
    decreases |s| - p
  {
    var next := NextAt(s, spans, p);
    assert GoesBySteps(s, spans, a, p) && GoesBySteps(s, spans, b, p);
    if next <= |s| { SameSteps(s, spans, a, b, next); }
  }

  lemma MaskCopies(t: string, spans: set<string>, c: char, rest: string, tail: string)
    requires t == [c] + rest && Longest(t, spans) <= 0 && tail == Mask(rest, spans)
    ensures Mask(t, spans) == if Longest(t, spans) == 0 then " " + [c] + tail else [c] + tail
  {
    assert t[1..] == rest && t[0] == c;
    assert " " + ([c] + tail) == " " + [c] + tail;
  }

  function MaskedFrom(s: string, spans: set<string>): nat -> string {
    (q: nat) => if q <= |s| then Mask(s[q..], spans) else ""
  }

  lemma MaskOfSuffix(s: string, spans: set<string>, p: nat)
    requires p <= |s|
    ensures GoesBySteps(s, spans, MaskedFrom(s, spans), p)
  {
    var t, n := s[p..], Longest(s[p..], spans);
    if n > 0 {
      assert t[n..] == s[p + n..];
    } else if p < |s| {
      MaskCopies(t, spans, s[p], s[p + 1..], Mask(s[p + 1..], spans));
    } else {
      assert t == "";
    }
  }

  lemma BlankCopies(re: Regex, s: string, p: nat, tail: string)
    requires p < |s| && MatchAt(re, s, p, false) == Miss && tail == Blank(s, Spans(re, s, p + 1, false), p + 1)
    ensures Blank(s, Spans(re, s, p, false), p) == [s[p]] + tail
  {
    ScanStep(re, s, p, false, Miss);
    SkipStep(re, s, p, p + 1);
    assert s[p..p + 1] == [s[p]];
  }

  lemma BlankEnds(re: Regex, s: string, p: nat, found: Found)
    requires p == |s| && MatchAt(re, s, p, false) == found && (found == Hit(p) ==> MatchAt(re, s, p, true) == Miss)
    ensures Blank(s, Spans(re, s, p, false), p) == if found.Hit? then " " else ""
  {
    ScanStep(re, s, p, false, found);
    assert s[p..] == "";
    if found.Hit? {
      ScanStep(re, s, p, true, Miss);
      BlankFirst(s, Span(p, p), [], p);
      assert s[p..p] == "";
    }
  }

  function BlankedFrom(re: Regex, s: string): nat -> string {
    (q: nat) => if q <= |s| then Blank(s, Spans(re, s, q, false), q) else ""
  }

  lemma StepsOn(s: string, spans: set<string>, out: nat -> string, p: nat, next: nat)
    requires p <= |s| && next == NextAt(s, spans, p) && next <= |s| && out(p) == FrontAt(s, spans, p) + out(next)
    ensures GoesBySteps(s, spans, out, p)
  {
  }

  lemma StepsEnd(s: string, spans: set<string>, out: nat -> string, p: nat)
    requires p <= |s| && NextAt(s, spans, p) > |s| && out(p) == FrontAt(s, spans, p)
    ensures GoesBySteps(s, spans, out, p)
  {
    assert FrontAt(s, spans, p) + "" == FrontAt(s, spans, p);
  }

  lemma BlankHit(re: Regex, s: string, p: nat, e: nat)
    requires p < e <= |s| && MatchAt(re, s, p, false) == Hit(e)
    ensures Blank(s, Spans(re, s, p, false), p) == " " + Blank(s, Spans(re, s, e, false), e)
  {
    HitStep(re, s, p, e);
  }

  lemma HitGoesOn(re: Regex, s: string, spans: set<string>, p: nat, e: nat, front: string)
    requires p < e <= |s| && e == NextAt(s, spans, p) && front == " " && front == FrontAt(s, spans, p)
    requires MatchAt(re, s, p, false) == Hit(e)
    ensures GoesBySteps(s, spans, BlankedFrom(re, s), p)
  {
    BlankHit(re, s, p, e);
    StepsOn(s, spans, BlankedFrom(re, s), p, e);
  }

  lemma EmptyGoesOn(re: Regex, s: string, spans: set<string>, p: nat, front: string)
    requires p < |s| && Longest(s[p..], spans) == 0 && front == " " + [s[p]]
    requires MatchAt(re, s, p, false) == Hit(p) && MatchAt(re, s, p, true) == Miss
    ensures GoesBySteps(s, spans, BlankedFrom(re, s), p)
  {
    EmptyHitStep(re, s, p);
    assert FrontAt(s, spans, p) == front;
    StepsOn(s, spans, BlankedFrom(re, s), p, p + 1);
  }

  lemma MissGoesOn(re: Regex, s: string, spans: set<string>, p: nat, front: string)
    requires p < |s| && Longest(s[p..], spans) < 0 && MatchAt(re, s, p, false) == Miss && front == [s[p]]
    ensures GoesBySteps(s, spans, BlankedFrom(re, s), p)
  {
    BlankCopies(re, s, p, Blank(s, Spans(re, s, p + 1, false), p + 1));
    assert FrontAt(s, spans, p) == front;
    StepsOn(s, spans, BlankedFrom(re, s), p, p + 1);
  }

  /** The scan writes what masking writes, step by step. */
  lemma BlankOfSuffix(re: Regex, s: string, spans: set<string>, p: nat, n: int, found: Found)
    requires p <= |s| && n == Longest(s[p..], spans) && found == MatchAt(re, s, p, false)
    requires found == if n >= 0 then Hit(p + n) else Miss
    requires n == 0 ==> MatchAt(re, s, p, true) == Miss
    ensures GoesBySteps(s, spans, BlankedFrom(re, s), p)
  {
    if n > 0 {
      HitGoesOn(re, s, spans, p, p + n, " ");
    } else if p == |s| {
      BlankEnds(re, s, p, found);
      StepsEnd(s, spans, BlankedFrom(re, s), p);
    } else if n == 0 {
      EmptyGoesOn(re, s, spans, p, " " + [s[p]]);
    } else {
      MissGoesOn(re, s, spans, p, [s[p]]);
    }
  }

  lemma MaskScan(re: Regex, spans: set<string>, s: string, p: nat)
    requires MatchesSpans(re, spans) && p <= |s|
    ensures Blank(s, Spans(re, s, p, false), p) == Mask(s[p..], spans)
  {
    var blanked, masked := BlankedFrom(re, s), MaskedFrom(s, spans);
    forall q: nat | q <= |s| ensures GoesBySteps(s, spans, blanked, q) && GoesBySteps(s, spans, masked, q) {
      assert MatchAt(re, s, q, false) == SpanMatch(s, q, spans);
      BlankOfSuffix(re, s, spans, q, Longest(s[q..], spans), MatchAt(re, s, q, false));
      MaskOfSuffix(s, spans, q);
    }
    SameSteps(s, spans, blanked, masked, p);
  }

  /** Masking is well defined: any longest-first alternation of the spans, whatever order it
      lists words of equal length in, replaces exactly what `Mask` does. */
  lemma AnyLongestFirstMasks(order: seq<string>, spans: set<string>, s: string)
    requires spans != {} && LongestFirst(order, spans)
    ensures order != [] && Sub(AnyOf(order, false), s) == Mask(s, spans)
  {
    MaskMatch(order, spans, s, 0);
    LongestFirstMatchesSpans(order, spans);
    MaskScan(AnyOf(order, false), spans, s, 0);
    assert s[0..] == s;
  }

  /** Some span starts at `p` and reaches `e` at least. */
  ghost predicate Starts(spans: seq<Span>, p: nat, e: nat) {
    exists k :: 0 <= k < |spans| && spans[k].start == p && e <= spans[k].end
  }

  ghost predicate NoneInto(spans: seq<Span>, p: nat) {
    forall k :: 0 <= k < |spans| && spans[k].start < p ==> spans[k].end <= p
  }

  lemma StartsLater(first: Span, rest: seq<Span>, p: nat, e: nat)
    ensures NoneInto([first] + rest, p) ==> NoneInto(rest, p) && (first.start < p ==> first.end <= p)
    ensures Starts(rest, p, e) ==> Starts([first] + rest, p, e)
  {
    var spans := [first] + rest;
    assert spans[0] == first && forall k :: 0 <= k < |rest| ==> rest[k] == spans[k + 1];
  }

  lemma StartsHere(first: Span, rest: seq<Span>, e: nat)
    requires e <= first.end
    ensures Starts([first] + rest, first.start, e)
  {
    assert ([first] + rest)[0] == first;
  }

  /** `scan(q)` lists the matches from `q` on, none of which is empty. */
  ghost predicate ScansFrom(found: nat -> Found, scan: nat -> seq<Span>, q: nat) {
    match found(q)
    case Hit(end) => q < end && scan(q) == [Span(q, end)] + scan(end)
    case Miss => scan(q) == scan(q + 1)
  }

  /** Such a scan reaches every position no match reaches into, and a match there is one of its
      spans. */
  lemma {:induction false} ScanReaches(found: nat -> Found, scan: nat -> seq<Span>, from: nat, p: nat, e: nat)
    requires from <= p && NoneInto(scan(from), p) && forall q: nat :: from <= q <= p ==> ScansFrom(found, scan, q)
    requires found(p).Hit? && e <= found(p).end
    ensures Starts(scan(from), p, e)
    decreases p - from
  {
    assert ScansFrom(found, scan, from);
    if from == p {
      StartsHere(Span(p, found(p).end), scan(found(p).end), e);
    } else if found(from).Miss? {
      ScanReaches(found, scan, from + 1, p, e);
    } else {
      var next := found(from).end;
      StartsLater(Span(from, next), scan(next), p, e);
      ScanReaches(found, scan, next, p, e);
      StartsLater(Span(from, next), scan(next), p, e);
    }
  }

  function FoundIn(re: Regex, s: string): nat -> Found {
    (i: nat) => if i <= |s| then MatchAt(re, s, i, false) else Miss
  }

  function ScanIn(re: Regex, s: string): nat -> seq<Span> {
    (i: nat) => if i <= |s| then Spans(re, s, i, false) else []
  }

  lemma SpansScan(re: Regex, s: string, q: nat, m: Found)
    requires q <= |s| && m == MatchAt(re, s, q, false) && (m.Hit? ==> m.end > q)
    ensures ScansFrom(FoundIn(re, s), ScanIn(re, s), q)
  {
    ScanStep(re, s, q, false, m);
    ScanAt(re, s, q);
    if m.Hit? {
      ScanAt(re, s, m.end);
    } else {
      ScanAt(re, s, q + 1);
    }
  }

  lemma ScanAt(re: Regex, s: string, q: nat)
    ensures q <= |s| ==> FoundIn(re, s)(q) == MatchAt(re, s, q, false) && ScanIn(re, s)(q) == Spans(re, s, q, false)
    ensures q > |s| ==> ScanIn(re, s)(q) == []
  {
  }

  /** An occurrence of a span that no earlier match reaches into is masked whole: a match
      starts right there and covers it. */
  lemma OccurrenceMasked(order: seq<string>, words: set<string>, s: string, w: string, p: nat)
    requires words != {} && LongestFirst(order, words) && order != [] && "" !in words
    requires w in words && OccursAt(w, s, p) && NoneInto(Spans(AnyOf(order, false), s, 0, false), p)
    ensures Starts(Spans(AnyOf(order, false), s, 0, false), p, p + |w|)
  {
    var re := AnyOf(order, false);
    OccurrenceFound(order, words, s, w, p);
    var found, scan := FoundIn(re, s), ScanIn(re, s);
    forall q: nat | q <= p ensures ScansFrom(found, scan, q) {
      MaskMatch(order, words, s, q);
      NoEmptySpan(s[q..], words);
      SpansScan(re, s, q, MatchAt(re, s, q, false));
    }
    ScanReaches(found, scan, 0, p, p + |w|);
  }

  lemma OccurrenceFound(order: seq<string>, words: set<string>, s: string, w: string, p: nat)
    requires words != {} && LongestFirst(order, words) && order != [] && w in words && OccursAt(w, s, p)
    ensures var m := MatchAt(AnyOf(order, false), s, p, false); m.Hit? && p + |w| <= m.end
  {
    MaskMatch(order, words, s, p);
    assert s[p..][..|w|] == w;
  }

  lemma NoEmptySpan(t: string, words: set<string>)
    requires "" !in words
    ensures Longest(t, words) != 0
  {
    assert t[..0] == "";
  }
}

/**
 The part of Python's `re` the service relies on: a backtracking matcher with ordered
 choice and greedy repetition, `findall`/`sub` as a left-to-right scan, and the positions
 a substitution keeps.
 */
module Regex {
  import opened Text

  datatype Class = DigitClass | WordClass | SepClass {
    predicate Has(c: char) {
      match this
      case DigitClass => IsDigit(c)
      case WordClass => IsWord(c)
      case SepClass => IsSep(c)
    }
  }

  datatype Regex =
    | Edge                                    // \b
    | Lit(text: string, fold: bool)           // escaped text, optionally ignoring case
    | One(cls: Class)                         // one character of a class
    | Many(cls: Class)                        // cls+, greedy
    | Opt(inner: Regex)                       // (?:inner)?, greedy
    | Cat(first: Regex, second: Regex)
    | Or(preferred: Regex, other: Regex)      // ordered choice

  /** `\b` at position `i`. */
  predicate AtEdge(s: string, i: nat)
    requires i <= |s|
  {
    (0 < i && IsWord(s[i - 1])) != (i < |s| && IsWord(s[i]))
  }

  predicate LitAt(text: string, fold: bool, s: string, i: nat) {
    i + |text| <= |s| &&
    if fold then LowerAll(s[i..i + |text|]) == LowerAll(text) else s[i..i + |text|] == text
  }

  /** End of the maximal run of class `cls` starting at `i`. */
  function RunEnd(cls: Class, s: string, i: nat): (e: nat)
    requires i <= |s|
    ensures i <= e <= |s|
    ensures forall k :: i <= k < e ==> cls.Has(s[k])
    ensures e < |s| ==> !cls.Has(s[e])
    decreases |s| - i
  {
    if i < |s| && cls.Has(s[i]) then RunEnd(cls, s, i + 1) else i
  }

  /** The numbers `hi, hi - 1, ..., lo`: the ends a greedy repetition tries, in order. */
  function Down(hi: nat, lo: nat): (r: seq<nat>)
    ensures forall e :: e in r <==> lo <= e <= hi
    ensures lo <= hi ==> r != [] && r[0] == hi
    decreases if lo <= hi then hi - lo + 1 else 0
  {
    if hi < lo then [] else if hi == lo then [hi] else [hi] + Down(hi - 1, lo)
  }

  /** Every end a match of `re` starting at `i` can have, in the order the backtracking
      matcher tries them. Python's match is the first. */
  function Ends(re: Regex, s: string, i: nat): (r: seq<nat>)
    requires i <= |s|
    ensures forall e :: e in r ==> i <= e <= |s|
    decreases re, 0
  {
    match re
    case Edge => if AtEdge(s, i) then [i] else []
    case Lit(text, fold) => if LitAt(text, fold, s, i) then [i + |text|] else []
    case One(cls) => if i < |s| && cls.Has(s[i]) then [i + 1] else []
    case Many(cls) => Down(RunEnd(cls, s, i), i + 1)
    case Opt(inner) => Ends(inner, s, i) + [i]
    case Cat(a, b) => EndsAfter(b, s, Ends(a, s, i), i)
    case Or(a, b) => Ends(a, s, i) + Ends(b, s, i)
  }

  function EndsAfter(re: Regex, s: string, starts: seq<nat>, low: nat): (r: seq<nat>)
    requires forall e :: e in starts ==> low <= e <= |s|
    ensures forall e :: e in r ==> low <= e <= |s|
    decreases re, |starts| + 1
  {
    if starts == [] then []
    else
      assert starts[0] in starts && forall e :: e in starts[1..] ==> e in starts;
      Ends(re, s, starts[0]) + EndsAfter(re, s, starts[1..], low)
  }

  datatype Found = Miss | Hit(end: nat)

  function FirstFrom(ends: seq<nat>, least: nat): (r: Found)
    ensures r.Hit? ==> r.end in ends && r.end >= least
    ensures r.Miss? ==> forall e :: e in ends ==> e < least
  {
    if ends == [] then Miss
    else if ends[0] >= least then Hit(ends[0])
    else
      assert forall e :: e in ends <==> e == ends[0] || e in ends[1..];
      FirstFrom(ends[1..], least)
  }

  /** The match at `i`; `advance` forbids an empty one, as after a previous empty match. */
  function MatchAt(re: Regex, s: string, i: nat, advance: bool): (r: Found)
    requires i <= |s|
    ensures r.Hit? ==> i <= r.end <= |s| && (advance ==> i < r.end)
  {
    FirstFrom(Ends(re, s, i), if advance then i + 1 else i)
  }

  datatype Span = Span(start: nat, end: nat)

  /** The scan behind `findall` and `sub`: leftmost matches from `p` on, left to right. */
  function Spans(re: Regex, s: string, p: nat, advance: bool): (r: seq<Span>)
    requires p <= |s|
    ensures InOrder(r, p, |s|)
    decreases |s| - p, if advance then 0 else 1
  {
    match MatchAt(re, s, p, advance)
    case Hit(e) => [Span(p, e)] + Spans(re, s, e, e == p)
    case Miss => if p < |s| then Spans(re, s, p + 1, false) else []
  }

  ghost predicate InOrder(spans: seq<Span>, low: nat, high: nat)
    decreases |spans|
  {
    low <= high &&
    (spans != [] ==> low <= spans[0].start <= spans[0].end <= high && InOrder(spans[1..], spans[0].end, high))
  }

  /** `findall`: the matched texts. */
  function Texts(s: string, spans: seq<Span>, low: nat): (r: seq<string>)
    requires InOrder(spans, low, |s|)
    ensures |r| == |spans|
  {
    if spans == [] then [] else [s[spans[0].start..spans[0].end]] + Texts(s, spans[1..], spans[0].end)
  }

  function FindAll(re: Regex, s: string): seq<string> {
    Texts(s, Spans(re, s, 0, false), 0)
  }

  /** `sub(" ", s)`: every match replaced by one space. */
  function Blank(s: string, spans: seq<Span>, low: nat): string
    requires InOrder(spans, low, |s|)
  {
    if spans == [] then s[low..]
    else s[low..spans[0].start] + " " + Blank(s, spans[1..], spans[0].end)
  }

  function Sub(re: Regex, s: string): string {
    Blank(s, Spans(re, s, 0, false), 0)
  }

  // ---------------------------------------------------------------------------------
  // What a substitution keeps
  // ---------------------------------------------------------------------------------

  predicate Covered(spans: seq<Span>, i: nat) {
    exists k :: 0 <= k < |spans| && spans[k].start <= i < spans[k].end
  }

  /** Where the uncovered character `i` of the input lands in the output of `Blank`. */
  function Landing(spans: seq<Span>, low: nat, i: nat): nat
    requires low <= i
    decreases |spans|
  {
    if spans == [] || i < spans[0].start || i < spans[0].end || spans[0].start < low || spans[0].end < spans[0].start
    then i - low
    else spans[0].start - low + 1 + Landing(spans[1..], spans[0].end, i)
  }

  lemma AfterBlank(front: string, back: string, j: nat, c: char)
    requires j < |back| && back[j] == c
    ensures var whole := front + " " + back; |front| + 1 + j < |whole| && whole[|front| + 1 + j] == c
  {
  }

  /** A character before the first span. */
  lemma BeforeBlank(s: string, low: nat, start: nat, back: string, i: nat)
    requires low <= i < start <= |s|
    ensures var whole := s[low..start] + back; i - low < |whole| && whole[i - low] == s[i]
  {
  }

  lemma CoveredLater(first: Span, rest: seq<Span>, i: nat)
    requires !Covered([first] + rest, i)
    ensures !(first.start <= i < first.end) && !Covered(rest, i)
  {
    var spans := [first] + rest;
    assert spans[0] == first && forall k :: 0 <= k < |rest| ==> rest[k] == spans[k + 1];
  }

  lemma BlankFirst(s: string, first: Span, rest: seq<Span>, low: nat)
    requires InOrder([first] + rest, low, |s|)
    ensures low <= first.start <= first.end <= |s| && InOrder(rest, first.end, |s|)
    ensures Blank(s, [first] + rest, low) == s[low..first.start] + " " + Blank(s, rest, first.end)
  {
    assert ([first] + rest)[1..] == rest;
  }

  lemma TextsFirst(s: string, first: Span, rest: seq<Span>, low: nat)
    requires InOrder([first] + rest, low, |s|)
    ensures low <= first.start <= first.end <= |s| && InOrder(rest, first.end, |s|)
    ensures Texts(s, [first] + rest, low) == [s[first.start..first.end]] + Texts(s, rest, first.end)
  {
    assert ([first] + rest)[1..] == rest;
  }

  lemma LandingFirst(first: Span, rest: seq<Span>, low: nat, i: nat)
    requires low <= i && low <= first.start <= first.end && !(first.start <= i < first.end)
    ensures Landing([first] + rest, low, i) ==
            if i < first.start then i - low else first.start - low + 1 + Landing(rest, first.end, i)
  {
    assert ([first] + rest)[1..] == rest;
  }

  /** No uncovered character is lost: it is in the output, unchanged, at its landing. */
  lemma {:induction false} BlankKeepsUncovered(s: string, spans: seq<Span>, low: nat, i: nat)
    requires InOrder(spans, low, |s|) && low <= i < |s|
    requires !Covered(spans, i)
    ensures var j := Landing(spans, low, i); j < |Blank(s, spans, low)| && Blank(s, spans, low)[j] == s[i]
    decreases |spans|
  {
    if spans == [] {
    } else {
      var first, rest := spans[0], spans[1..];
      assert spans == [first] + rest;
      CoveredLater(first, rest, i);
      BlankFirst(s, first, rest, low);
      LandingFirst(first, rest, low, i);
      if i < first.start {
        BeforeBlank(s, low, first.start, " " + Blank(s, rest, first.end), i);
        assert s[low..first.start] + " " + Blank(s, rest, first.end) ==
               s[low..first.start] + (" " + Blank(s, rest, first.end));
      } else {
        BlankKeepsUncovered(s, rest, first.end, i);
        AfterBlank(s[low..first.start], Blank(s, rest, first.end), Landing(rest, first.end, i), s[i]);
      }
    }
  }

  /** A scan misses nothing: if every position where `i` is inside a word of interest has a
      non-empty match reaching past `i`, then `i` is covered. */
  lemma {:induction false} SpansCover(re: Regex, s: string, p: nat, i: nat)
    requires p <= i < |s|
    requires forall q :: p <= q <= i ==>
             var m := MatchAt(re, s, q, false); (m.Hit? ==> m.end > q) && (q == i ==> m.Hit?)
    ensures Covered(Spans(re, s, p, false), i)
    decreases |s| - p
  {
    var m := MatchAt(re, s, p, false);
    var spans := Spans(re, s, p, false);
    if m.Hit? {
      if i < m.end {
        assert spans[0].start <= i < spans[0].end;
      } else {
        SpansCover(re, s, m.end, i);
        var rest := Spans(re, s, m.end, false);
        var k :| 0 <= k < |rest| && rest[k].start <= i < rest[k].end;
        assert spans[k + 1] == rest[k];
      }
    } else {
      SpansCover(re, s, p + 1, i);
    }
  }

  /** One step of a scan. */
  lemma ScanStep(re: Regex, s: string, p: nat, advance: bool, m: Found)
    requires p <= |s| && m == MatchAt(re, s, p, advance)
    ensures m.Hit? ==> Spans(re, s, p, advance) == [Span(p, m.end)] + Spans(re, s, m.end, m.end == p)
    ensures m.Miss? ==> Spans(re, s, p, advance) == if p < |s| then Spans(re, s, p + 1, false) else []
  {
  }

  predicate IsMatch(re: Regex, s: string, low: nat, sp: Span) {
    low <= sp.start <= sp.end <= |s| && sp.end in Ends(re, s, sp.start)
  }

  lemma MatchIsEnd(re: Regex, s: string, p: nat, advance: bool)
    requires p <= |s| && MatchAt(re, s, p, advance).Hit?
    ensures IsMatch(re, s, p, Span(p, MatchAt(re, s, p, advance).end))
  {
  }

  lemma MatchFrom(re: Regex, s: string, low: nat, p: nat, sp: Span)
    requires low <= p && IsMatch(re, s, p, sp)
    ensures IsMatch(re, s, low, sp)
  {
  }

  /** Every span of a scan is a match. */
  lemma {:induction false} SpansAreMatches(re: Regex, s: string, p: nat, advance: bool, k: nat, spans: seq<Span>)
    requires p <= |s| && spans == Spans(re, s, p, advance) && k < |spans|
    ensures IsMatch(re, s, p, spans[k])
    decreases |s| - p, if advance then 0 else 1
  {
    var m := MatchAt(re, s, p, advance);
    ScanStep(re, s, p, advance, m);
    if m.Miss? {
      SpansAreMatches(re, s, p + 1, false, k, spans);
      MatchFrom(re, s, p, p + 1, spans[k]);
    } else {
      MatchIsEnd(re, s, p, advance);
      var rest := Spans(re, s, m.end, m.end == p);
      if k > 0 {
        SpansAreMatches(re, s, m.end, m.end == p, k - 1, rest);
        assert spans[k] == rest[k - 1];
        MatchFrom(re, s, p, m.end, rest[k - 1]);
      }
    }
  }

  lemma {:induction false} TextsAt(s: string, spans: seq<Span>, low: nat, k: nat)
    requires InOrder(spans, low, |s|) && k < |spans|
    ensures low <= spans[k].start <= spans[k].end <= |s|
    ensures Texts(s, spans, low)[k] == s[spans[k].start..spans[k].end]
  {
    if k == 0 {
    } else {
      TextsAt(s, spans[1..], spans[0].end, k - 1);
    }
  }

  // ---------------------------------------------------------------------------------
  // Alternations
  // ---------------------------------------------------------------------------------

  /** `"|".join(re.escape(w) for w in words)`. */
  function AnyOf(words: seq<string>, fold: bool): Regex
    requires words != []
  {
    if |words| == 1 then Lit(words[0], fold) else Or(Lit(words[0], fold), AnyOf(words[1..], fold))
  }

  /** An alternation tries its words in order; each contributes at most one end. */
  lemma {:induction false} AnyOfEnds(words: seq<string>, fold: bool, s: string, i: nat, e: nat)
    requires words != [] && i <= |s|
    ensures e in Ends(AnyOf(words, fold), s, i) <==> exists w :: w in words && LitAt(w, fold, s, i) && e == i + |w|
  {
    if |words| == 1 {
      assert forall w :: w in words <==> w == words[0];
    } else {
      AnyOfEnds(words[1..], fold, s, i, e);
      assert forall w :: w in words <==> w == words[0] || w in words[1..];
    }
  }
}

/** How the tokenizers act on a text put together from pieces. */
module Joints {
  import opened Text
  import opened Regex
  import opened Scanners

  predicate SplitsWords(a: string, b: string) {
    a == "" || b == "" || !IsWord(a[|a| - 1]) || !IsWord(b[0])
  }

  predicate SplitsNumerals(a: string, b: string) {
    a == "" || b == "" ||
    (!IsDigit(a[|a| - 1]) && !IsSep(a[|a| - 1])) ||
    (!IsDigit(b[0]) && !(IsSep(b[0]) && |b| > 1 && IsDigit(b[1])))
  }

  /** No sourced span stands across the joint of `a` and `b`. */
  ghost predicate Uncut(a: string, b: string, spans: set<string>) {
    forall p, e :: 0 <= p < |a| < e <= |a| + |b| ==> (a + b)[p..e] !in spans
  }

  lemma {:induction false} RunLenJoint(cls: Class, a: string, b: string)
    requires RunLen(cls, a) < |a| || b == "" || !cls.Has(b[0])
    ensures RunLen(cls, a + b) == RunLen(cls, a)
  {
    if a == "" {
      assert a + b == b;
    } else if cls.Has(a[0]) {
      assert (a + b)[1..] == a[1..] + b;
      RunLenJoint(cls, a[1..], b);
    }
  }

  /** A text of one class is a single run. */
  lemma {:induction false} RunOfAll(cls: Class, t: string)
    requires forall c :: c in t ==> cls.Has(c)
    ensures RunLen(cls, t) == |t|
  {
    if t == "" {
    } else {
      assert t[0] in t && forall c :: c in t[1..] ==> c in t;
      RunOfAll(cls, t[1..]);
    }
  }

  lemma PrefixOfJoint(a: string, b: string, n: nat)
    requires n <= |a|
    ensures (a + b)[..n] == a[..n] && (a + b)[n..] == a[n..] + b
  {
  }

  /** The first word of a joined text is the first word of its first piece. */
  lemma FirstWordJoint(a: string, b: string, n: nat, rest: string, wanted: string -> bool)
    requires a != "" && IsWord(a[0]) && SplitsWords(a, b)
    requires n == RunLen(WordClass, a) && rest == a[n..]
    ensures n > 0 && SplitsWords(rest, b)
    ensures Words(a) == [a[..n]] + Words(rest)
    ensures Words(a + b) == [a[..n]] + Words(rest + b)
    ensures BlankWords(a, wanted) == (if wanted(a[..n]) then " " else a[..n]) + BlankWords(rest, wanted)
    ensures BlankWords(a + b, wanted) == (if wanted(a[..n]) then " " else a[..n]) + BlankWords(rest + b, wanted)
  {
    RunLenRun(WordClass, a);
    RunLenJoint(WordClass, a, b);
    var t := a + b;
    var head, tail := t[..n], t[n..];
    assert head == a[..n] && tail == rest + b by { PrefixOfJoint(a, b, n); }
    WordSplit(a, n, wanted);
    WordSplit(t, n, wanted);
  }

  /** Both sides gain the same head. */
  lemma SameHead<T>(total: seq<T>, part: seq<T>, head: seq<T>, x: seq<T>, y: seq<T>, z: seq<T>)
    requires total == head + x && part == head + y && x == y + z
    ensures total == part + z
  {
  }

  lemma {:induction false} WordsJoint(a: string, b: string)
    requires SplitsWords(a, b)
    ensures Words(a + b) == Words(a) + Words(b)
    decreases |a|
  {
    if a == "" {
      assert a + b == b;
    } else if IsWord(a[0]) {
      var n := RunLen(WordClass, a);
      var rest := a[n..];
      FirstWordJoint(a, b, n, rest, (w: string) => true);
      WordsJoint(rest, b);
      SameHead(Words(a + b), Words(a), [a[..n]], Words(rest + b), Words(rest), Words(b));
    } else {
      PrefixOfJoint(a, b, 1);
      WordsJoint(a[1..], b);
    }
  }

  lemma FirstOtherJoint(a: string, b: string, rest: string, wanted: string -> bool)
    requires a != "" && !IsWord(a[0]) && rest == a[1..]
    ensures SplitsWords(a, b) ==> SplitsWords(rest, b)
    ensures BlankWords(a, wanted) == [a[0]] + BlankWords(rest, wanted)
    ensures BlankWords(a + b, wanted) == [a[0]] + BlankWords(rest + b, wanted)
  {
    var t := a + b;
    var tail := t[1..];
    assert tail == rest + b by { PrefixOfJoint(a, b, 1); }
    assert t[0] == a[0];
  }

  lemma {:induction false} BlankJoint(a: string, b: string, wanted: string -> bool)
    requires SplitsWords(a, b)
    ensures BlankWords(a + b, wanted) == BlankWords(a, wanted) + BlankWords(b, wanted)
    decreases |a|
  {
    if a == "" {
      assert a + b == b;
    } else {
      var n := if IsWord(a[0]) then RunLen(WordClass, a) else 1;
      var rest := a[n..];
      var head := if IsWord(a[0]) && wanted(a[..n]) then " " else a[..n];
      if IsWord(a[0]) {
        FirstWordJoint(a, b, n, rest, wanted);
      } else {
        FirstOtherJoint(a, b, rest, wanted);
        assert a[..1] == [a[0]];
      }
      BlankJoint(rest, b, wanted);
      SameHead(BlankWords(a + b, wanted), BlankWords(a, wanted), head,
               BlankWords(rest + b, wanted), BlankWords(rest, wanted), BlankWords(b, wanted));
    }
  }

  lemma {:induction false} KeepJoint(a: seq<string>, b: seq<string>, wanted: string -> bool)
    ensures Keep(a + b, wanted) == Keep(a, wanted) + Keep(b, wanted)
  {
    if a == [] {
      assert a + b == b;
    } else {
      assert (a + b)[1..] == a[1..] + b;
      KeepJoint(a[1..], b, wanted);
    }
  }

  lemma NumeralLenJoint(a: string, b: string)
    requires a != "" && IsDigit(a[0]) && SplitsNumerals(a, b)
    ensures NumeralLen(a + b) == NumeralLen(a)
  {
    if b == "" {
      assert a + b == a;
    } else {
      var whole := RunLen(DigitClass, a);
      var last := a[|a| - 1];
      RunLenRun(DigitClass, a);
      RunLenJoint(DigitClass, a, b);
      if whole + 1 < |a| && IsDigit(a[whole + 1]) {
        var tail := a[whole + 1..];
        assert tail[|tail| - 1] == last;
        RunLenRun(DigitClass, tail);
        RunLenJoint(DigitClass, tail, b);
        PrefixOfJoint(a, b, whole + 1);
      }
    }
  }

  lemma NumeralsSplit(s: string)
    requires s != "" && IsDigit(s[0])
    ensures Numerals(s) == [s[..NumeralLen(s)]] + Numerals(s[NumeralLen(s)..])
  {
  }

  lemma FirstNumeralJoint(a: string, b: string, n: nat, rest: string)
    requires a != "" && IsDigit(a[0]) && SplitsNumerals(a, b)
    requires n == NumeralLen(a) && rest == a[n..]
    ensures n > 0 && SplitsNumerals(rest, b)
    ensures Numerals(a) == [a[..n]] + Numerals(rest)
    ensures Numerals(a + b) == [a[..n]] + Numerals(rest + b)
  {
    NumeralLenJoint(a, b);
    var t := a + b;
    var head, tail := t[..n], t[n..];
    assert head == a[..n] && tail == rest + b by { PrefixOfJoint(a, b, n); }
    NumeralsSplit(a);
    NumeralsSplit(t);
  }

  lemma {:induction false} NumeralsJoint(a: string, b: string)
    requires SplitsNumerals(a, b)
    ensures Numerals(a + b) == Numerals(a) + Numerals(b)
    decreases |a|
  {
    if a == "" {
      assert a + b == b;
    } else if IsDigit(a[0]) {
      var n := NumeralLen(a);
      var rest := a[n..];
      FirstNumeralJoint(a, b, n, rest);
      NumeralsJoint(rest, b);
      SameHead(Numerals(a + b), Numerals(a), [a[..n]], Numerals(rest + b), Numerals(rest), Numerals(b));
    } else {
      PrefixOfJoint(a, b, 1);
      NumeralsJoint(a[1..], b);
    }
  }

  lemma LongestJoint(a: string, b: string, spans: set<string>)
    requires a != "" && Uncut(a, b, spans)
    ensures Longest(a + b, spans) == Longest(a, spans)
  {
    var t := a + b;
    var n, m := Longest(t, spans), Longest(a, spans);
    assert forall k :: 0 <= k <= |a| ==> t[..k] == a[..k];
    assert forall e :: |a| < e <= |t| ==> t[..e] == t[0..e];
  }

  lemma MaskSplit(s: string, spans: set<string>)
    requires s != "" && "" !in spans
    ensures var n := Longest(s, spans);
            Mask(s, spans) == if n > 0 then " " + Mask(s[n..], spans) else [s[0]] + Mask(s[1..], spans)
  {
    var n := Longest(s, spans);
    assert s[..0] == "";
  }

  lemma MaskEmpty(spans: set<string>)
    requires "" !in spans
    ensures Mask("", spans) == ""
  {
    assert ""[..0] == "";
  }

  lemma UncutRest(a: string, b: string, spans: set<string>, n: nat)
    requires n <= |a| && Uncut(a, b, spans)
    ensures Uncut(a[n..], b, spans)
  {
    var rest := a[n..];
    forall p, e | 0 <= p < |rest| < e <= |rest| + |b| ensures (rest + b)[p..e] !in spans {
      assert (rest + b)[p..e] == (a + b)[p + n..e + n];
    }
  }

  // ---------------------------------------------------------------------------------
  // What masking leaves is contiguous in the original
  // ---------------------------------------------------------------------------------

  ghost predicate Inside(w: string, s: string) { exists p: nat :: OccursAt(w, s, p) }

  lemma InsideSuffix(w: string, s: string, n: nat)
    requires n <= |s| && Inside(w, s[n..])
    ensures Inside(w, s)
  {
    var p: nat :| OccursAt(w, s[n..], p);
    assert s[n..][p..p + |w|] == s[n + p..n + p + |w|];
    assert OccursAt(w, s, n + p);
  }

  lemma NumeralHasNoSpace(t: string)
    requires t != "" && IsDigit(t[0])
    ensures forall k :: 0 <= k < NumeralLen(t) ==> IsDigit(t[k]) || IsSep(t[k])
  {
    var whole := RunLen(DigitClass, t);
    RunLenRun(DigitClass, t);
    if NumeralLen(t) > whole {
      var tail := t[whole + 1..];
      RunLenRun(DigitClass, tail);
      forall k | whole < k < NumeralLen(t) ensures IsDigit(t[k]) {
        assert t[k] == tail[k - whole - 1];
      }
    }
  }

  predicate NumeralShape(t: string) { t != "" && IsDigit(t[0]) && NumeralLen(t) == |t| }

  lemma NumeralLenOfItself(s: string)
    requires s != "" && IsDigit(s[0])
    ensures NumeralShape(s[..NumeralLen(s)])
  {
    var n := NumeralLen(s);
    var whole := RunLen(DigitClass, s);
    var t := s[..n];
    if n == whole {
      RunLenJoint(DigitClass, t, "");
      assert RunLen(DigitClass, t) == whole by { RunLenWithin(DigitClass, s, n); }
    } else {
      RunLenWithin(DigitClass, s, n);
      var tail := s[whole + 1..];
      assert t[whole + 1..] == tail[..n - whole - 1];
      RunLenWithin(DigitClass, tail, n - whole - 1);
    }
  }

  lemma {:induction false} RunLenWithin(cls: Class, s: string, n: nat)
    requires RunLen(cls, s) <= n <= |s|
    ensures RunLen(cls, s[..n]) == RunLen(cls, s)
  {
    if s != "" && cls.Has(s[0]) {
      assert s[..n][1..] == s[1..][..n - 1];
      RunLenWithin(cls, s[1..], n - 1);
    }
  }

  /** A word stands in its text, and so does a numeral. */
  lemma {:induction false} WordStands(s: string, w: string)
    requires w in Words(s)
    ensures w != "" && Inside(w, s) && forall c :: c in w ==> IsWord(c)
    decreases |s|
  {
    if s == "" {
    } else {
      var n := if IsWord(s[0]) then RunLen(WordClass, s) else 1;
      RunLenRun(WordClass, s);
      if IsWord(s[0]) && w == s[..n] {
        assert OccursAt(w, s, 0);
      } else {
        WordStands(s[n..], w);
        InsideSuffix(w, s, n);
      }
    }
  }

  lemma {:induction false} NumeralStands(s: string, w: string)
    requires w in Numerals(s)
    ensures w != "" && Inside(w, s) && NumeralShape(w)
    decreases |s|
  {
    if s == "" {
    } else {
      var n := if IsDigit(s[0]) then NumeralLen(s) else 1;
      if IsDigit(s[0]) && w == s[..n] {
        NumeralLenOfItself(s);
        assert OccursAt(w, s, 0);
      } else {
        NumeralStands(s[n..], w);
        InsideSuffix(w, s, n);
      }
    }
  }

  // ---------------------------------------------------------------------------------
  // Masking the front of a text
  // ---------------------------------------------------------------------------------

  /** What one step of masking writes, at a longest match of `n` characters. */
  function Put(n: int, c: char): string { if n > 0 then " " else if n == 0 then " " + [c] else [c] }

  function Advance(n: int): nat { if n > 0 then n else 1 }

  /** What masking `a + b` writes for the matches and characters that start in `a`. */
  function MaskHead(a: string, b: string, spans: set<string>): string
    decreases |a|
  {
    if a == "" then ""
    else
      var n := Longest(a + b, spans);
      if n > |a| then " " else Put(n, a[0]) + MaskHead(a[Advance(n)..], b, spans)
  }

  /** How far the last of those matches reaches into `b`. */
  function Overrun(a: string, b: string, spans: set<string>): (r: nat)
    ensures r <= |b|
    decreases |a|
  {
    if a == "" then 0
    else
      var n := Longest(a + b, spans);
      if n > |a| then n - |a| else Overrun(a[Advance(n)..], b, spans)
  }

  lemma MaskStep(s: string, spans: set<string>, n: int)
    requires s != "" && n == Longest(s, spans)
    ensures Mask(s, spans) == Put(n, s[0]) + Mask(s[Advance(n)..], spans)
  {
  }

  lemma SameFront(front: string, m: string, h: string, t: string)
    requires m == h + t
    ensures front + m == (front + h) + t
  {
  }

  /** Masking splits at any joint: the front is written, and the scan goes on where its last
      match ends. */
  lemma {:induction false} MaskInTwo(a: string, b: string, spans: set<string>)
    ensures Mask(a + b, spans) == MaskHead(a, b, spans) + Mask(b[Overrun(a, b, spans)..], spans)
    decreases |a|
  {
    if a == "" {
      assert a + b == b && b[0..] == b;
    } else {
      var n := Longest(a + b, spans);
      MaskStep(a + b, spans, n);
      if n > |a| {
        assert (a + b)[n..] == b[n - |a|..];
      } else {
        var rest := a[Advance(n)..];
        PrefixOfJoint(a, b, Advance(n));
        MaskInTwo(rest, b, spans);
        SameFront(Put(n, a[0]), Mask(rest + b, spans), MaskHead(rest, b, spans),
                  Mask(b[Overrun(rest, b, spans)..], spans));
      }
    }
  }

  predicate NoBlank(w: string) { forall k :: 0 <= k < |w| ==> w[k] != ' ' }

  /** A blank-free start of what is written is a start of the text. */
  lemma {:induction false} HeadStart(a: string, b: string, spans: set<string>, r: nat)
    requires r <= |MaskHead(a, b, spans)| && NoBlank(MaskHead(a, b, spans)[..r])
    ensures r <= |a| && MaskHead(a, b, spans)[..r] == a[..r]
    decreases |a|
  {
    var h := MaskHead(a, b, spans);
    if a == "" || r == 0 {
    } else {
      var n := Longest(a + b, spans);
      assert h[..r][0] != ' ';
      assert n < 0;
      var rest := MaskHead(a[1..], b, spans);
      assert h[..r][1..] == rest[..r - 1];
      HeadStart(a[1..], b, spans, r - 1);
      assert h[..r] == [a[0]] + rest[..r - 1] && a[..r] == [a[0]] + a[1..][..r - 1];
    }
  }

  /** What one step writes and what comes after it. */
  lemma HeadStep(a: string, b: string, spans: set<string>) returns (front: string, step: nat)
    requires a != ""
    ensures 0 < step <= |a| && MaskHead(a, b, spans) == front + MaskHead(a[step..], b, spans)
    ensures front == " " || front == [a[0]] || (front == " " + [a[0]] && "" in spans)
  {
    var n := Longest(a + b, spans);
    assert n == 0 ==> (a + b)[..0] == "";
    front, step := Put(n, a[0]), if n > |a| then |a| else Advance(n);
    assert a[|a|..] == "";
  }

  lemma SpreadHead(a: string, b: string, spans: set<string>)
    requires "" in spans && a != ""
    ensures MaskHead(a, b, spans) != "" && MaskHead(a, b, spans)[0] == ' '
  {
    assert (a + b)[..0] == "";
  }

  lemma OccursLater(w: string, front: string, rest: string, p: nat)
    requires OccursAt(w, front + rest, p) && p >= |front|
    ensures OccursAt(w, rest, p - |front|)
  {
    var q := p - |front|;
    assert (front + rest)[p..p + |w|] == rest[q..q + |w|];
  }

  lemma StretchOfOne(w: string, c: char, rest: string)
    requires w != "" && OccursAt(w, " " + [c] + rest, 1) && (rest == "" || rest[0] == ' ')
    ensures NoBlank(w) ==> w == [c]
  {
    var t := " " + [c] + rest;
    assert forall k :: 0 <= k < |w| ==> w[k] == t[k + 1];
    assert |w| >= 2 ==> w[1] == rest[0];
  }

  /** Every blank-free stretch of what is written stands contiguously in the text. */
  lemma {:induction false} HeadStretch(a: string, b: string, spans: set<string>, w: string, p: nat)
    requires OccursAt(w, MaskHead(a, b, spans), p) && w != "" && NoBlank(w)
    ensures Inside(w, a)
    decreases |a|
  {
    if a == "" {
    } else if p == 0 {
      HeadStart(a, b, spans, |w|);
      assert OccursAt(w, a, 0);
    } else {
      var front, step := HeadStep(a, b, spans);
      var rest := MaskHead(a[step..], b, spans);
      if p >= |front| {
        OccursLater(w, front, rest, p);
        HeadStretch(a[step..], b, spans, w, p - |front|);
        InsideSuffix(w, a, step);
      } else {
        if a[step..] != "" { SpreadHead(a[step..], b, spans); }
        StretchOfOne(w, a[0], rest);
        SingleInside(w, a);
      }
    }
  }

  // ---------------------------------------------------------------------------------
  // An empty span among the sourced ones
  // ---------------------------------------------------------------------------------

  /** The characters masking leaves, in order. */
  function Left(t: string, spans: set<string>): string
    decreases |t|
  {
    if t == "" then ""
    else
      var n := Longest(t, spans);
      if n > 0 then Left(t[n..], spans) else [t[0]] + Left(t[1..], spans)
  }

  /** The characters of a class, each on its own. */
  function Singles(cls: Class, s: string): seq<string> {
    if s == "" then [] else (if cls.Has(s[0]) then [[s[0]]] else []) + Singles(cls, s[1..])
  }

  /** An empty span puts a blank before every character left. */
  lemma MaskSpread(t: string, spans: set<string>)
    requires "" in spans
    ensures var n := Longest(t, spans);
            Mask(t, spans) ==
            " " + if n > 0 then Mask(t[n..], spans) else if t == "" then "" else [t[0]] + Mask(t[1..], spans)
  {
    assert t[..0] == "";
  }

  lemma TokensAfterBlank(t: string)
    ensures Numerals(" " + t) == Numerals(t) && Words(" " + t) == Words(t)
  {
    assert (" " + t)[1..] == t;
  }

  lemma TokensOfOne(c: char)
    ensures Numerals([c]) == (if IsDigit(c) then [[c]] else [])
    ensures Words([c]) == (if IsWord(c) then [[c]] else [])
  {
    assert [c][1..] == "" && [c][..1] == [c];
    assert RunLen(DigitClass, [c]) == (if IsDigit(c) then 1 else 0);
    assert RunLen(WordClass, [c]) == (if IsWord(c) then 1 else 0);
  }

  lemma SpreadStep(c: char, rest: string, spans: set<string>)
    requires "" in spans
    ensures Numerals([c] + Mask(rest, spans)) == Numerals([c]) + Numerals(Mask(rest, spans))
    ensures Words([c] + Mask(rest, spans)) == Words([c]) + Words(Mask(rest, spans))
  {
    MaskSpread(rest, spans);
    NumeralsJoint([c], Mask(rest, spans));
    WordsJoint([c], Mask(rest, spans));
  }

  /** With an empty span among them, every digit and every word character masking leaves is
      scanned on its own. */
  lemma {:induction false} EmptySpanIsolates(t: string, spans: set<string>)
    requires "" in spans
    ensures Numerals(Mask(t, spans)) == Singles(DigitClass, Left(t, spans))
    ensures Words(Mask(t, spans)) == Singles(WordClass, Left(t, spans))
    decreases |t|
  {
    MaskSpread(t, spans);
    var n := Longest(t, spans);
    if n > 0 {
      EmptySpanIsolates(t[n..], spans);
      TokensAfterBlank(Mask(t[n..], spans));
    } else if t == "" {
      TokensAfterBlank("");
    } else {
      EmptySpanIsolates(t[1..], spans);
      TokensAfterBlank([t[0]] + Mask(t[1..], spans));
      SpreadStep(t[0], t[1..], spans);
      TokensOfOne(t[0]);
      assert Left(t, spans)[1..] == Left(t[1..], spans);
    }
  }

  lemma {:induction false} SinglesExact(cls: Class, s: string, w: string)
    ensures w in Singles(cls, s) <==> |w| == 1 && cls.Has(w[0]) && w[0] in s
  {
    if s == "" {
    } else {
      SinglesExact(cls, s[1..], w);
      assert w == [s[0]] <==> |w| == 1 && w[0] == s[0];
      assert forall c :: c in s <==> c == s[0] || c in s[1..];
    }
  }

  lemma {:induction false} LeftLetters(t: string, spans: set<string>, c: char)
    ensures c in Left(t, spans) ==> c in t
    ensures c in t && (forall e :: e in spans ==> c !in e) ==> c in Left(t, spans)
    decreases |t|
  {
    if t == "" {
    } else {
      var n := Longest(t, spans);
      var step := if n > 0 then n else 1;
      LeftLetters(t[step..], spans, c);
      assert forall x :: x in t <==> x in t[..step] || x in t[step..] by { assert t == t[..step] + t[step..]; }
    }
  }

  lemma SingleInside(w: string, s: string)
    requires |w| == 1 && w[0] in s
    ensures Inside(w, s)
  {
    var p :| 0 <= p < |s| && s[p] == w[0];
    assert s[p..p + 1] == w;
    assert OccursAt(w, s, p);
  }

  // ---------------------------------------------------------------------------------
  // The tokens of a masked front, and its edges
  // ---------------------------------------------------------------------------------

  lemma WordsHaveNoBlank(w: string)
    requires (forall c :: c in w ==> IsWord(c)) || NumeralShape(w)
    ensures NoBlank(w)
  {
    if NumeralShape(w) { NumeralHasNoSpace(w); }
    assert forall k :: 0 <= k < |w| ==> w[k] in w;
  }

  /** Whatever the spans, each word or numeral written stands contiguously in the front. */
  lemma HeadWordInside(a: string, b: string, spans: set<string>, w: string)
    requires w in Words(MaskHead(a, b, spans))
    ensures w != "" && Inside(w, a)
  {
    var h := MaskHead(a, b, spans);
    WordStands(h, w);
    var p: nat :| OccursAt(w, h, p);
    WordsHaveNoBlank(w);
    HeadStretch(a, b, spans, w, p);
  }

  lemma HeadNumeralInside(a: string, b: string, spans: set<string>, w: string)
    requires w in Numerals(MaskHead(a, b, spans))
    ensures NumeralShape(w) && Inside(w, a)
  {
    var h := MaskHead(a, b, spans);
    NumeralStands(h, w);
    var p: nat :| OccursAt(w, h, p);
    WordsHaveNoBlank(w);
    HeadStretch(a, b, spans, w, p);
  }

  lemma MaskOfNothing(spans: set<string>)
    ensures Mask("", spans) == "" || Mask("", spans) == " "
    ensures Words(Mask("", spans)) == [] && Numerals(Mask("", spans)) == []
  {
    TokensAfterBlank("");
  }

  /** The mark an empty span leaves at the end of a text is no token. */
  lemma TokensBeforeEnd(h: string, spans: set<string>)
    ensures Words(h + Mask("", spans)) == Words(h) && Numerals(h + Mask("", spans)) == Numerals(h)
  {
    MaskOfNothing(spans);
    WordsJoint(h, Mask("", spans));
    NumeralsJoint(h, Mask("", spans));
  }

  lemma MaskIsHead(s: string, spans: set<string>)
    ensures Words(Mask(s, spans)) == Words(MaskHead(s, "", spans))
    ensures Numerals(Mask(s, spans)) == Numerals(MaskHead(s, "", spans))
  {
    MaskInTwo(s, "", spans);
    assert s + "" == s;
    TokensBeforeEnd(MaskHead(s, "", spans), spans);
  }

  /** Each word masking leaves of a text stands contiguously in it. */
  lemma MaskedWordInside(s: string, spans: set<string>, w: string)
    requires w in Words(Mask(s, spans))
    ensures Inside(w, s)
  {
    MaskIsHead(s, spans);
    HeadWordInside(s, "", spans, w);
  }

  /** And so does each numeral. */
  lemma MaskedNumeralInside(s: string, spans: set<string>, w: string)
    requires w in Numerals(Mask(s, spans))
    ensures Inside(w, s) && NumeralShape(w)
  {
    MaskIsHead(s, spans);
    HeadNumeralInside(s, "", spans, w);
  }

  /** Where no span stands across the joint, the front is masked as it would be alone. */
  lemma {:induction false} UncutHead(a: string, b: string, spans: set<string>)
    requires Uncut(a, b, spans)
    ensures Overrun(a, b, spans) == 0 && Mask(a, spans) == MaskHead(a, b, spans) + Mask("", spans)
    decreases |a|
  {
    if a == "" {
    } else {
      var n := Longest(a, spans);
      LongestJoint(a, b, spans);
      MaskStep(a, spans, n);
      var rest := a[Advance(n)..];
      UncutRest(a, b, spans, Advance(n));
      UncutHead(rest, b, spans);
      SameFront(Put(n, a[0]), Mask(rest, spans), MaskHead(rest, b, spans), Mask("", spans));
    }
  }

  /** The last character written is a blank, or the last of the front with no match across. */
  lemma {:induction false} HeadLast(a: string, b: string, spans: set<string>)
    requires a != ""
    ensures EndsAs(MaskHead(a, b, spans), a, Overrun(a, b, spans))
    decreases |a|
  {
    var n := Longest(a + b, spans);
    if n <= |a| {
      var rest := a[Advance(n)..];
      if rest != "" {
        HeadLast(rest, b, spans);
        LastOfTwo(Put(n, a[0]), MaskHead(rest, b, spans));
      }
    }
  }

  predicate EndsAs(h: string, a: string, over: nat)
    requires a != ""
  {
    h != "" && (h[|h| - 1] == ' ' || (over == 0 && h[|h| - 1] == a[|a| - 1]))
  }

  lemma LastOfTwo(front: string, h: string)
    requires h != ""
    ensures (front + h)[|front + h| - 1] == h[|h| - 1]
  {
  }

  lemma MaskFirst(s: string, spans: set<string>)
    requires s != ""
    ensures Mask(s, spans) != "" && (Mask(s, spans)[0] == ' ' || Mask(s, spans) == [s[0]] + Mask(s[1..], spans))
  {
  }

  // ---------------------------------------------------------------------------------
  // Prose made of fragments
  // ---------------------------------------------------------------------------------

  /** A character no word and no numeral contains. */
  predicate IsLoose(c: char) { !IsWord(c) && !IsSep(c) }

  function Join(parts: seq<string>): string {
    if parts == [] then "" else parts[0] + Join(parts[1..])
  }

  lemma {:induction false} JoinTwo(first: seq<string>, second: seq<string>)
    ensures Join(first + second) == Join(first) + Join(second)
  {
    if first == [] {
      assert first + second == second;
    } else {
      assert (first + second)[1..] == first[1..] + second;
      JoinTwo(first[1..], second);
    }
  }

  /** An occurrence across a joint contains the character before the joint. */
  lemma CrossingContainsLast(w: string, a: string, b: string, p: nat)
    requires OccursAt(w, a + b, p) && p < |a| < p + |w|
    ensures a[|a| - 1] in w
  {
    assert w[|a| - 1 - p] == (a + b)[|a| - 1];
  }

  /** Words and numerals do not reach across the end of a fragment closed by a loose
      character. */
  lemma {:induction false} InsideFragment(w: string, parts: seq<string>)
    requires w != "" && forall c :: c in w ==> !IsLoose(c)
    requires forall k :: 0 <= k < |parts| ==> parts[k] != "" && IsLoose(parts[k][|parts[k]| - 1])
    requires Inside(w, Join(parts))
    ensures exists k :: 0 <= k < |parts| && Inside(w, parts[k])
  {
    var s := Join(parts);
    var p: nat :| OccursAt(w, s, p);
    if parts != [] {
      var a, b := parts[0], Join(parts[1..]);
      if p + |w| <= |a| {
        assert s[p..p + |w|] == a[p..p + |w|];
        assert OccursAt(w, a, p);
        assert Inside(w, parts[0]);
      } else if p >= |a| {
        assert s[p..p + |w|] == b[p - |a|..p - |a| + |w|];
        assert OccursAt(w, b, p - |a|);
        InsideFragment(w, parts[1..]);
        var k :| 0 <= k < |parts[1..]| && Inside(w, parts[1..][k]);
        assert Inside(w, parts[k + 1]);
      } else {
        CrossingContainsLast(w, a, b, p);
      }
    }
  }
}

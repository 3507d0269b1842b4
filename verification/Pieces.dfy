/**
 Scanning a reply put together from prose and fields. The checker's verdict on the whole text
 comes down to what masking leaves of each field, and often to the amounts among them.
 */
module Pieces {
  import opened Text
  import opened Regex
  import opened Scanners
  import opened Joints
  import opened Decimals
  import opened Domain
  import opened FactSets
  import opened Grounding

  // ---------------------------------------------------------------------------------
  // Joints that separate tokens
  // ---------------------------------------------------------------------------------

  predicate EndsLoose(a: string) { a != "" && IsLoose(a[|a| - 1]) }

  predicate StartsClosed(b: string) {
    b != "" && !IsWord(b[0]) && (IsSep(b[0]) ==> |b| > 1 && !IsDigit(b[1]))
  }

  predicate Alternates(parts: seq<string>) {
    forall k :: 0 <= k < |parts| - 1 ==> EndsLoose(parts[k]) || StartsClosed(parts[k + 1])
  }

  lemma AlternatesRest(parts: seq<string>)
    requires parts != [] && Alternates(parts)
    ensures Alternates(parts[1..])
    ensures SplitsWords(parts[0], Join(parts[1..])) && SplitsNumerals(parts[0], Join(parts[1..]))
  {
    var rest := parts[1..];
    forall k | 0 <= k < |rest| - 1 ensures EndsLoose(rest[k]) || StartsClosed(rest[k + 1]) {
      assert rest[k] == parts[k + 1] && rest[k + 1] == parts[k + 2];
    }
    if rest != [] {
      assert EndsLoose(parts[0]) || StartsClosed(parts[1]);
      assert Join(rest) == parts[1] + Join(rest[1..]);
    }
  }

  lemma {:induction false} WordsOfJoin(parts: seq<string>, w: string)
    requires Alternates(parts)
    ensures w in Words(Join(parts)) <==> exists k :: 0 <= k < |parts| && w in Words(parts[k])
  {
    if parts == [] {
    } else {
      AlternatesRest(parts);
      WordsJoint(parts[0], Join(parts[1..]));
      WordsOfJoin(parts[1..], w);
      assert forall k :: 0 <= k < |parts[1..]| ==> parts[1..][k] == parts[k + 1];
      assert forall k :: 0 < k < |parts| ==> parts[k] == parts[1..][k - 1];
    }
  }

  lemma {:induction false} NumeralsOfJoin(parts: seq<string>, w: string)
    requires Alternates(parts)
    ensures w in Numerals(Join(parts)) <==> exists k :: 0 <= k < |parts| && w in Numerals(parts[k])
  {
    if parts == [] {
    } else {
      AlternatesRest(parts);
      NumeralsJoint(parts[0], Join(parts[1..]));
      NumeralsOfJoin(parts[1..], w);
      assert forall k :: 0 <= k < |parts[1..]| ==> parts[1..][k] == parts[k + 1];
      assert forall k :: 0 < k < |parts| ==> parts[k] == parts[1..][k - 1];
    }
  }

  function BlankEach(parts: seq<string>): (r: seq<string>)
    ensures |r| == |parts| && forall k :: 0 <= k < |parts| ==> r[k] == BlankIdentifiers(parts[k])
  {
    seq(|parts|, i requires 0 <= i < |parts| => BlankIdentifiers(parts[i]))
  }

  lemma {:induction false} BlankOfJoin(parts: seq<string>)
    requires Alternates(parts)
    ensures BlankIdentifiers(Join(parts)) == Join(BlankEach(parts))
  {
    if parts == [] {
    } else {
      AlternatesRest(parts);
      BlankJoint(parts[0], Join(parts[1..]), (w: string) => IsIdentifier(w));
      BlankOfJoin(parts[1..]);
      assert BlankEach(parts)[1..] == BlankEach(parts[1..]);
    }
  }

  // ---------------------------------------------------------------------------------
  // What masking the whole leaves of each part
  // ---------------------------------------------------------------------------------

  /** What masking the joined text leaves of each part, when the scan starts `skip` characters
      in. A match that runs on into the next parts takes its share of them away. */
  function Remnants(parts: seq<string>, spans: set<string>, skip: nat): (r: seq<string>)
    ensures |r| == |parts|
  {
    if parts == [] then []
    else if skip >= |parts[0]| then [""] + Remnants(parts[1..], spans, skip - |parts[0]|)
    else
      var part, rest := parts[0][skip..], Join(parts[1..]);
      [MaskHead(part, rest, spans)] + Remnants(parts[1..], spans, Overrun(part, rest, spans))
  }

  lemma MaskStartsClosed(b: string, spans: set<string>)
    requires StartsClosed(b)
    ensures StartsClosed(Mask(b, spans)) || Mask(b, spans)[0] == ' '
  {
    MaskFirst(b, spans);
    if |b| > 1 { MaskFirst(b[1..], spans); }
  }

  /** What is written of a part does not run into what is written next. */
  lemma HeadSplits(a: string, b: string, spans: set<string>, left: string, next: string)
    requires a != "" && (b == "" || EndsLoose(a) || StartsClosed(b))
    requires left == MaskHead(a, b, spans) && next == Mask(b[Overrun(a, b, spans)..], spans)
    ensures SplitsWords(left, next) && SplitsNumerals(left, next)
  {
    HeadLast(a, b, spans);
    if left[|left| - 1] == ' ' || EndsLoose(a) {
      LooseSplits(left, next);
    } else {
      assert b[0..] == b;
      ClosedSplits(left, b, spans);
    }
  }

  lemma LooseSplits(left: string, next: string)
    requires EndsLoose(left)
    ensures SplitsWords(left, next) && SplitsNumerals(left, next)
  {
  }

  lemma ClosedSplits(left: string, b: string, spans: set<string>)
    requires b == "" || StartsClosed(b)
    ensures SplitsWords(left, Mask(b, spans)) && SplitsNumerals(left, Mask(b, spans))
  {
    if b == "" {
      MaskOfNothing(spans);
    } else {
      MaskStartsClosed(b, spans);
    }
  }

  lemma HeadTokens(a: string, b: string, spans: set<string>, over: nat, w: string)
    requires a != "" && (b == "" || EndsLoose(a) || StartsClosed(b)) && over == Overrun(a, b, spans)
    ensures w in Words(Mask(a + b, spans)) <==> w in Words(MaskHead(a, b, spans)) || w in Words(Mask(b[over..], spans))
    ensures w in Numerals(Mask(a + b, spans)) <==>
            w in Numerals(MaskHead(a, b, spans)) || w in Numerals(Mask(b[over..], spans))
  {
    var left, next := MaskHead(a, b, spans), Mask(b[over..], spans);
    MaskInTwo(a, b, spans);
    HeadSplits(a, b, spans, left, next);
    WordsJoint(left, next);
    NumeralsJoint(left, next);
  }

  ghost predicate WordAmong(lefts: seq<string>, w: string) { exists k :: 0 <= k < |lefts| && w in Words(lefts[k]) }

  ghost predicate NumeralAmong(lefts: seq<string>, w: string) {
    exists k :: 0 <= k < |lefts| && w in Numerals(lefts[k])
  }

  lemma AmongFirst(left: string, lefts: seq<string>, w: string)
    ensures WordAmong([left] + lefts, w) <==> w in Words(left) || WordAmong(lefts, w)
    ensures NumeralAmong([left] + lefts, w) <==> w in Numerals(left) || NumeralAmong(lefts, w)
  {
    var all := [left] + lefts;
    assert all[0] == left && all[1..] == lefts;
    assert forall k :: 0 <= k < |lefts| ==> lefts[k] == all[k + 1];
  }

  lemma SkipFirst(parts: seq<string>, skip: nat)
    requires parts != [] && skip <= |Join(parts)|
    ensures skip >= |parts[0]| ==> Join(parts)[skip..] == Join(parts[1..])[skip - |parts[0]|..]
    ensures skip < |parts[0]| ==> Join(parts)[skip..] == parts[0][skip..] + Join(parts[1..])
  {
  }

  /** Masking the whole text leaves exactly the tokens of the remnants. */
  lemma {:induction false} TokensOfRemnants(parts: seq<string>, spans: set<string>, skip: nat, w: string)
    requires Alternates(parts) && skip <= |Join(parts)|
    ensures w in Words(Mask(Join(parts)[skip..], spans)) <==> WordAmong(Remnants(parts, spans, skip), w)
    ensures w in Numerals(Mask(Join(parts)[skip..], spans)) <==> NumeralAmong(Remnants(parts, spans, skip), w)
    decreases |parts|
  {
    if parts == [] {
      MaskOfNothing(spans);
    } else {
      AlternatesRest(parts);
      SkipFirst(parts, skip);
      var part, later := if skip < |parts[0]| then parts[0][skip..] else "", Join(parts[1..]);
      var over := if skip < |parts[0]| then Overrun(part, later, spans) else skip - |parts[0]|;
      if skip < |parts[0]| { HeadTokens(part, later, spans, over, w); }
      TokensOfRemnants(parts[1..], spans, over, w);
      AmongFirst(MaskHead(part, later, spans), Remnants(parts[1..], spans, over), w);
    }
  }

  lemma MaskedTokens(parts: seq<string>, spans: set<string>, w: string)
    requires Alternates(parts)
    ensures w in Words(Mask(Join(parts), spans)) <==> WordAmong(Remnants(parts, spans, 0), w)
    ensures w in Numerals(Mask(Join(parts), spans)) <==> NumeralAmong(Remnants(parts, spans, 0), w)
  {
    assert Join(parts)[0..] == Join(parts);
    TokensOfRemnants(parts, spans, 0, w);
  }

  /** The tokens of a remnant stand contiguously in its part. */
  lemma {:induction false} RemnantInside(parts: seq<string>, spans: set<string>, skip: nat, k: nat, w: string)
    requires k < |parts|
    ensures w in Words(Remnants(parts, spans, skip)[k]) ==> w != "" && Inside(w, parts[k])
    ensures w in Numerals(Remnants(parts, spans, skip)[k]) ==> NumeralShape(w) && Inside(w, parts[k])
  {
    var lefts := Remnants(parts, spans, skip);
    if skip >= |parts[0]| {
      if k > 0 { RemnantInside(parts[1..], spans, skip - |parts[0]|, k - 1, w); }
    } else {
      var part, rest := parts[0][skip..], Join(parts[1..]);
      if k > 0 {
        RemnantInside(parts[1..], spans, Overrun(part, rest, spans), k - 1, w);
      } else {
        if w in Words(lefts[0]) { HeadWordInside(part, rest, spans, w); InsideSuffix(w, parts[0], skip); }
        if w in Numerals(lefts[0]) { HeadNumeralInside(part, rest, spans, w); InsideSuffix(w, parts[0], skip); }
      }
    }
  }

  /** No sourced span stands across the edge of a part. */
  ghost predicate UncutParts(parts: seq<string>, spans: set<string>) {
    parts == [] || (Uncut(parts[0], Join(parts[1..]), spans) && UncutParts(parts[1..], spans))
  }

  /** Then each part is masked as it would be alone. */
  lemma {:induction false} RemnantsAlone(parts: seq<string>, spans: set<string>, k: nat)
    requires UncutParts(parts, spans) && k < |parts|
    ensures Mask(parts[k], spans) == Remnants(parts, spans, 0)[k] + Mask("", spans)
  {
    var part, rest := parts[0], Join(parts[1..]);
    UncutHead(part, rest, spans);
    assert part[0..] == part;
    if k > 0 {
      RemnantsAlone(parts[1..], spans, k - 1);
    }
  }

  // ---------------------------------------------------------------------------------
  // Pieces
  // ---------------------------------------------------------------------------------

  lemma InsideLetters(w: string, line: string, k: nat)
    requires Inside(w, line) && k < |w|
    ensures w[k] in line
  {
    var p: nat :| OccursAt(w, line, p);
    assert line[p..p + |w|][k] == line[p + k];
  }

  /** What a piece of a reply is: prose of the template, or an interpolated field, which is
      plain text, a name, an id or a written amount. */
  datatype Kind = Said | Plain | Entity | Id | Amount(v: real)

  datatype Piece = Piece(text: string, kind: Kind)

  function TextsOf(pieces: seq<Piece>): (r: seq<string>)
    ensures |r| == |pieces| && forall k :: 0 <= k < |pieces| ==> r[k] == pieces[k].text
  {
    seq(|pieces|, i requires 0 <= i < |pieces| => pieces[i].text)
  }

  function BlankedOf(pieces: seq<Piece>): (r: seq<string>)
    ensures |r| == |pieces| && forall k :: 0 <= k < |pieces| ==> r[k] == BlankIdentifiers(pieces[k].text)
  {
    seq(|pieces|, i requires 0 <= i < |pieces| => BlankIdentifiers(pieces[i].text))
  }

  predicate NoIdentifier(t: string) { forall w | w in Words(t) :: !IsIdentifier(w) }

  /** Whatever part of `t` masking leaves, it holds no unsourced literal. */
  ghost predicate Silent(t: string, statuses: set<string>, numbers: set<real>) {
    NoIdentifier(t) &&
    (forall w :: Inside(w, t) && NumeralShape(w) ==> AsDecimal(w).Some? && AsDecimal(w).value in numbers) &&
    (forall w :: Inside(w, t) && IsStatus(w) ==> LowerAll(w) in statuses)
  }

  /** The prose is silent, and tokens stay within the pieces. The fields may hold any text. */
  ghost predicate Clean(pieces: seq<Piece>, facts: FactSet, numbers: set<real>) {
    (forall p :: p in pieces && p.kind.Said? ==> Silent(p.text, facts.AllowedStatuses(), numbers)) &&
    Alternates(TextsOf(pieces)) && Alternates(BlankedOf(pieces))
  }

  lemma {:induction false} BlankNothing(t: string)
    requires NoIdentifier(t)
    ensures BlankIdentifiers(t) == t
    decreases |t|
  {
    if t == "" {
    } else {
      if IsWord(t[0]) {
        var n := RunLen(WordClass, t);
        WordSplit(t, n, (w: string) => IsIdentifier(w));
        var head, rest := t[..n], t[n..];
        assert head in Words(t);
        assert forall w :: w in Words(rest) ==> w in Words(t);
        BlankNothing(rest);
      } else {
        assert t == [t[0]] + t[1..];
        BlankNothing(t[1..]);
      }
    }
  }

  lemma IdentifierWords(t: string)
    requires IsIdentifier(t)
    ensures Words(t) == [t] && BlankIdentifiers(t) == " "
  {
    RunOfAll(WordClass, t);
    assert t[0] in t;
    var rest := t[|t|..];
    assert rest == "" && t[..|t|] == t;
    WordSplit(t, |t|, (w: string) => IsIdentifier(w));
    assert Words("") == [];
  }

  lemma IdentifierHasUnderscore(w: string)
    requires IsIdentifier(w)
    ensures '_' in w
  {
    if |w| > 4 && w[..4] == "inv_" {
      assert w[3] == w[..4][3];
    } else if |w| > 5 && w[..5] == "sess_" {
      assert w[4] == w[..5][4];
    } else {
      assert w[1] == w[..2][1];
    }
  }

  /** Text without an underscore holds no identifier. */
  lemma NoUnderscoreNoIdentifier(t: string)
    requires '_' !in t
    ensures NoIdentifier(t)
  {
    forall w | w in Words(t) ensures !IsIdentifier(w) {
      WordLetters(t, w);
      if IsIdentifier(w) { IdentifierHasUnderscore(w); }
    }
  }

  lemma AmountLetters(v: real)
    ensures forall c :: c in FormatAmount(v) ==> IsDigit(c) || c == '.' || c == '-'
  {
    var s := FormatAmount(v);
    forall c | c in s ensures IsDigit(c) || c == '.' || c == '-' {
      var k :| 0 <= k < |s| && s[k] == c;
    }
  }

  lemma AmountHasNoIdentifier(v: real)
    ensures NoIdentifier(FormatAmount(v))
  {
    AmountLetters(v);
    NoUnderscoreNoIdentifier(FormatAmount(v));
  }

  lemma {:induction false} WordLetters(s: string, w: string)
    requires w in Words(s)
    ensures w != "" && forall c :: c in w ==> c in s
    decreases |s|
  {
    if IsWord(s[0]) {
      var n := RunLen(WordClass, s);
      WordSplit(s, n, (w: string) => true);
      if w != s[..n] { WordLetters(s[n..], w); }
    } else {
      WordLetters(s[1..], w);
    }
  }

  // ---------------------------------------------------------------------------------
  // What the scans see of one masked piece
  // ---------------------------------------------------------------------------------

  /** What masking the blanked reply leaves of each piece. */
  function LeftOf(pieces: seq<Piece>, names: set<string>): (r: seq<string>)
    ensures |r| == |pieces|
  {
    Remnants(BlankedOf(pieces), names, 0)
  }

  /** A text that is itself a span leaves no token. */
  lemma WholeLeavesNothing(t: string, spans: set<string>)
    requires t in spans
    ensures Words(Mask(t, spans)) == [] && Numerals(Mask(t, spans)) == []
  {
    assert t[..|t|] == t && t[|t|..] == "";
    if "" in spans {
      EmptySpanIsolates(t, spans);
    } else {
      MaskSplit(t, spans);
      MaskEmpty(spans);
      SpaceIsEmpty();
    }
  }

  /** A blank space holds no token. */
  lemma SpaceIsEmpty()
    ensures Words(" ") == [] && Numerals(" ") == []
  {
    assert " "[1..] == "";
  }

  /** The value an amount has once written with two decimals. */
  function Written(v: real): real { Cents(v) as real / 100.0 }

  lemma AmountHoldsNoStatus(v: real, w: string)
    requires Inside(w, FormatAmount(v))
    ensures !IsStatus(w)
  {
    AmountLetters(v);
    if IsStatus(w) {
      StatusFirst(w);
      InsideLetters(w, FormatAmount(v), 0);
    }
  }

  lemma StatusFirst(w: string)
    requires IsStatus(w)
    ensures w != "" && !IsDigit(w[0]) && w[0] != '.' && w[0] != '-'
  {
    StatusVocabulary(w);
    assert LowerAll(w)[0] == Lower(w[0]);
  }

  lemma BlankHoldsNothing(w: string)
    requires Inside(w, " ")
    ensures !IsStatus(w) && !NumeralShape(w)
  {
    var p: nat :| OccursAt(w, " ", p);
    assert |LowerAll(w)| <= 1;
    StatusVocabulary(w);
    assert w != "" ==> " "[p..p + |w|][0] == ' ';
  }

  predicate SourcedNumeral(w: string, numbers: set<real>) {
    AsDecimal(w).Some? && AsDecimal(w).value in numbers
  }

  /** Whatever masking leaves of a written amount, its numerals are sourced. */
  ghost predicate ReadsTrue(v: real, names: set<string>, numbers: set<real>) {
    forall w :: w in Numerals(Mask(FormatAmount(v), names)) ==> SourcedNumeral(w, numbers)
  }

  /** The numerals and the status words of a text are sourced. */
  ghost predicate SourcedText(t: string, statuses: set<string>, numbers: set<real>) {
    (forall w :: w in Numerals(t) ==> SourcedNumeral(w, numbers)) &&
    (forall w :: w in Words(t) && IsStatus(w) ==> LowerAll(w) in statuses)
  }

  predicate IsField(p: Piece) { !p.kind.Said? }

  /** Whatever is left of silent text is sourced. */
  lemma SilentSourced(pieces: seq<Piece>, facts: FactSet, numbers: set<real>, k: nat)
    requires k < |pieces| && Silent(pieces[k].text, facts.AllowedStatuses(), numbers)
    ensures SourcedText(LeftOf(pieces, facts.AllowedEntities())[k], facts.AllowedStatuses(), numbers)
  {
    var names := facts.AllowedEntities();
    var parts, left := BlankedOf(pieces), LeftOf(pieces, names)[k];
    BlankNothing(pieces[k].text);
    forall w | w in Numerals(left) ensures SourcedNumeral(w, numbers) {
      RemnantInside(parts, names, 0, k, w);
    }
    forall w | w in Words(left) && IsStatus(w) ensures LowerAll(w) in facts.AllowedStatuses() {
      RemnantInside(parts, names, 0, k, w);
    }
  }

  // ---------------------------------------------------------------------------------
  // The whole reply
  // ---------------------------------------------------------------------------------

  lemma BlankedReply(pieces: seq<Piece>, facts: FactSet, numbers: set<real>)
    requires Clean(pieces, facts, numbers)
    ensures BlankIdentifiers(Join(TextsOf(pieces))) == Join(BlankedOf(pieces))
  {
    BlankOfJoin(TextsOf(pieces));
    assert BlankEach(TextsOf(pieces)) == BlankedOf(pieces);
  }

  /** What masking leaves of the blanked reply is scanned piece by piece. */
  lemma ReplySourced(pieces: seq<Piece>, facts: FactSet, numbers: set<real>, masked: string)
    requires Clean(pieces, facts, numbers)
    requires masked == Mask(BlankIdentifiers(Join(TextsOf(pieces))), facts.AllowedEntities())
    ensures SourcedText(masked, facts.AllowedStatuses(), numbers) <==>
            forall k :: 0 <= k < |pieces| ==>
              SourcedText(LeftOf(pieces, facts.AllowedEntities())[k], facts.AllowedStatuses(), numbers)
  {
    BlankedReply(pieces, facts, numbers);
    var parts, names := BlankedOf(pieces), facts.AllowedEntities();
    SourcedByParts(parts, names, LeftOf(pieces, names), facts.AllowedStatuses(), numbers);
  }

  lemma SourcedByParts(parts: seq<string>, names: set<string>, lefts: seq<string>, statuses: set<string>,
                       numbers: set<real>)
    requires Alternates(parts) && lefts == Remnants(parts, names, 0)
    ensures SourcedText(Mask(Join(parts), names), statuses, numbers) <==>
            forall k :: 0 <= k < |lefts| ==> SourcedText(lefts[k], statuses, numbers)
  {
    var masked := Mask(Join(parts), names);
    forall w
      ensures w in Words(masked) <==> WordAmong(lefts, w)
      ensures w in Numerals(masked) <==> NumeralAmong(lefts, w)
    {
      MaskedTokens(parts, names, w);
    }
    if SourcedText(masked, statuses, numbers) {
      forall k | 0 <= k < |lefts| ensures SourcedText(lefts[k], statuses, numbers) {
        PartSourced(masked, lefts, k, statuses, numbers);
      }
    }
    if forall k :: 0 <= k < |lefts| ==> SourcedText(lefts[k], statuses, numbers) {
      WholeSourced(masked, lefts, statuses, numbers);
    }
  }

  lemma WholeSourced(masked: string, lefts: seq<string>, statuses: set<string>, numbers: set<real>)
    requires forall k :: 0 <= k < |lefts| ==> SourcedText(lefts[k], statuses, numbers)
    requires forall w :: w in Words(masked) ==> WordAmong(lefts, w)
    requires forall w :: w in Numerals(masked) ==> NumeralAmong(lefts, w)
    ensures SourcedText(masked, statuses, numbers)
  {
    forall w | w in Numerals(masked) ensures SourcedNumeral(w, numbers) {
      var k :| 0 <= k < |lefts| && w in Numerals(lefts[k]);
    }
    forall w | w in Words(masked) && IsStatus(w) ensures LowerAll(w) in statuses {
      var k :| 0 <= k < |lefts| && w in Words(lefts[k]);
    }
  }

  lemma PartSourced(masked: string, lefts: seq<string>, k: nat, statuses: set<string>, numbers: set<real>)
    requires k < |lefts| && SourcedText(masked, statuses, numbers)
    requires forall w :: WordAmong(lefts, w) ==> w in Words(masked)
    requires forall w :: NumeralAmong(lefts, w) ==> w in Numerals(masked)
    ensures SourcedText(lefts[k], statuses, numbers)
  {
    forall w | w in Numerals(lefts[k]) ensures SourcedNumeral(w, numbers) {
      assert NumeralAmong(lefts, w);
    }
    forall w | w in Words(lefts[k]) && IsStatus(w) ensures LowerAll(w) in statuses {
      assert WordAmong(lefts, w);
    }
  }

  predicate SourcedIds(t: string, ids: set<string>) { forall w | w in Words(t) :: IsIdentifier(w) ==> w in ids }

  /** The identifiers of the reply are those of its pieces. */
  lemma IdsByParts(parts: seq<string>, ids: set<string>)
    requires Alternates(parts)
    ensures (forall w :: w in Identifiers(Join(parts)) ==> w in ids) <==>
            forall k :: 0 <= k < |parts| ==> SourcedIds(parts[k], ids)
  {
    forall w ensures w in Words(Join(parts)) <==> WordAmong(parts, w) {
      WordsOfJoin(parts, w);
    }
    if forall w :: w in Identifiers(Join(parts)) ==> w in ids {
      forall k | 0 <= k < |parts| ensures SourcedIds(parts[k], ids) {
        forall w | w in Words(parts[k]) && IsIdentifier(w) ensures w in ids {
          assert WordAmong(parts, w);
          assert w in Identifiers(Join(parts));
        }
      }
    }
  }

  ghost predicate AmountsSourced(pieces: seq<Piece>, names: set<string>, numbers: set<real>) {
    forall p :: p in pieces && p.kind.Amount? ==> ReadsTrue(p.kind.v, names, numbers)
  }

  lemma UntagIn(l: Literal, texts: seq<string>, kind: LiteralClass)
    ensures l in Tag(texts, kind) <==> l.kind == kind && l.text in texts
  {
    if l.kind == kind && l.text in texts { Tagged(texts, kind, l.text); }
  }

  /** Everything is grounded exactly when each class of literal is. */
  lemma GroundedByClass(ids: seq<string>, numerals: seq<string>, statuses: seq<string>, facts: FactSet,
                        safe: set<string>)
    ensures var literals := Tag(ids, IdentifierClass) + Tag(numerals, NumberClass) + Tag(statuses, StatusClass);
            (forall l :: l in literals ==> Grounded(l, facts, safe)) <==>
            (forall w :: w in ids ==> Grounded(Literal(w, IdentifierClass), facts, safe)) &&
            (forall w :: w in numerals ==> Grounded(Literal(w, NumberClass), facts, safe)) &&
            (forall w :: w in statuses ==> Grounded(Literal(w, StatusClass), facts, safe))
  {
    var a, b, c := Tag(ids, IdentifierClass), Tag(numerals, NumberClass), Tag(statuses, StatusClass);
    var literals := a + b + c;
    forall l: Literal
      ensures l in literals <==> (l.kind == IdentifierClass && l.text in ids) ||
                                 (l.kind == NumberClass && l.text in numerals) ||
                                 (l.kind == StatusClass && l.text in statuses)
    {
      UntagIn(l, ids, IdentifierClass);
      UntagIn(l, numerals, NumberClass);
      UntagIn(l, statuses, StatusClass);
      assert l in literals <==> l in a || l in b || l in c;
    }
    forall w | w in ids ensures Literal(w, IdentifierClass) in literals {}
    forall w | w in numerals ensures Literal(w, NumberClass) in literals {}
    forall w | w in statuses ensures Literal(w, StatusClass) in literals {}
    forall l: Literal | l in literals ensures l == Literal(l.text, l.kind) {}
  }

  lemma CleanByClass(reply: string, facts: FactSet, safe: set<string>, ids: seq<string>, numerals: seq<string>,
                     statuses: seq<string>)
    requires Extract(reply, facts) == Tag(ids, IdentifierClass) + Tag(numerals, NumberClass) +
             Tag(statuses, StatusClass)
    ensures Check(reply, facts, safe).violations == [] <==>
            (forall w :: w in ids ==> Grounded(Literal(w, IdentifierClass), facts, safe)) &&
            (forall w :: w in numerals ==> Grounded(Literal(w, NumberClass), facts, safe)) &&
            (forall w :: w in statuses ==> Grounded(Literal(w, StatusClass), facts, safe))
  {
    GroundedByClass(ids, numerals, statuses, facts, safe);
    assert Check(reply, facts, safe).violations == [] <==>
      forall l :: l in Extract(reply, facts) ==> Grounded(l, facts, safe);
  }

  lemma GroundedIsSourced(w: string, facts: FactSet, safe: set<string>, numbers: set<real>)
    requires numbers == facts.AllowedNumbers() + SafeNumbers(safe)
    ensures Grounded(Literal(w, IdentifierClass), facts, safe) <==> w in facts.AllowedIdentifiers()
    ensures Grounded(Literal(w, NumberClass), facts, safe) <==> SourcedNumeral(w, numbers)
    ensures Grounded(Literal(w, StatusClass), facts, safe) <==> LowerAll(w) in facts.AllowedStatuses()
  {
  }

  lemma ClassesSourced(ids: seq<string>, masked: string, statuses: seq<string>, facts: FactSet, safe: set<string>,
                       numbers: set<real>)
    requires numbers == facts.AllowedNumbers() + SafeNumbers(safe)
    requires forall w :: w in statuses <==> w in Words(masked) && IsStatus(w)
    ensures (forall w :: w in ids ==> Grounded(Literal(w, IdentifierClass), facts, safe)) &&
            (forall w :: w in Numerals(masked) ==> Grounded(Literal(w, NumberClass), facts, safe)) &&
            (forall w :: w in statuses ==> Grounded(Literal(w, StatusClass), facts, safe)) <==>
            (forall w :: w in ids ==> w in facts.AllowedIdentifiers()) &&
            SourcedText(masked, facts.AllowedStatuses(), numbers)
  {
    forall w
      ensures Grounded(Literal(w, IdentifierClass), facts, safe) <==> w in facts.AllowedIdentifiers()
      ensures Grounded(Literal(w, NumberClass), facts, safe) <==> SourcedNumeral(w, numbers)
      ensures Grounded(Literal(w, StatusClass), facts, safe) <==> LowerAll(w) in facts.AllowedStatuses()
    {
      GroundedIsSourced(w, facts, safe, numbers);
    }
  }

  /** A reply is clean exactly when its identifiers are sourced and so is the masked text. */
  lemma VerdictOnText(reply: string, facts: FactSet, safe: set<string>, numbers: set<real>, masked: string)
    requires numbers == facts.AllowedNumbers() + SafeNumbers(safe)
    requires masked == Mask(BlankIdentifiers(reply), facts.AllowedEntities())
    ensures Check(reply, facts, safe).violations == [] <==>
            (forall w :: w in Identifiers(reply) ==> w in facts.AllowedIdentifiers()) &&
            SourcedText(masked, facts.AllowedStatuses(), numbers)
  {
    var statuses := Keep(Words(masked), (w: string) => IsStatus(w));
    ExtractTokenizes(reply, facts);
    CleanByClass(reply, facts, safe, Identifiers(reply), Numerals(masked), statuses);
    ClassesSourced(Identifiers(reply), masked, statuses, facts, safe, numbers);
  }

  /** The identifiers of the `k`-th piece are sourced, and so is what masking leaves of it. */
  ghost predicate PieceSourced(pieces: seq<Piece>, facts: FactSet, numbers: set<real>, k: nat)
    requires k < |pieces|
  {
    SourcedIds(pieces[k].text, facts.AllowedIdentifiers()) &&
    SourcedText(LeftOf(pieces, facts.AllowedEntities())[k], facts.AllowedStatuses(), numbers)
  }

  ghost predicate FieldsSourced(pieces: seq<Piece>, facts: FactSet, numbers: set<real>) {
    forall k :: 0 <= k < |pieces| && IsField(pieces[k]) ==> PieceSourced(pieces, facts, numbers, k)
  }

  /** For clean pieces the reply is grounded exactly when the identifiers of each field are
      sourced and so is everything in what masking the whole leaves of it. The prose never
      matters. */
  lemma CleanVerdict(pieces: seq<Piece>, facts: FactSet, safe: set<string>)
    requires Clean(pieces, facts, facts.AllowedNumbers() + SafeNumbers(safe))
    ensures Check(Join(TextsOf(pieces)), facts, safe).violations == [] <==>
            FieldsSourced(pieces, facts, facts.AllowedNumbers() + SafeNumbers(safe))
  {
    var numbers := facts.AllowedNumbers() + SafeNumbers(safe);
    var reply := Join(TextsOf(pieces));
    var masked := Mask(BlankIdentifiers(reply), facts.AllowedEntities());
    VerdictOnText(reply, facts, safe, numbers, masked);
    IdsByParts(TextsOf(pieces), facts.AllowedIdentifiers());
    ReplySourced(pieces, facts, numbers, masked);
    assert forall k :: 0 <= k < |pieces| ==> TextsOf(pieces)[k] == pieces[k].text;
    EachSourced(pieces, facts, numbers);
  }

  lemma EachSourced(pieces: seq<Piece>, facts: FactSet, numbers: set<real>)
    requires Clean(pieces, facts, numbers)
    ensures (forall k :: 0 <= k < |pieces| ==> SourcedIds(pieces[k].text, facts.AllowedIdentifiers())) &&
            (forall k :: 0 <= k < |pieces| ==>
              SourcedText(LeftOf(pieces, facts.AllowedEntities())[k], facts.AllowedStatuses(), numbers)) <==>
            FieldsSourced(pieces, facts, numbers)
  {
    forall k | 0 <= k < |pieces| && !IsField(pieces[k]) ensures PieceSourced(pieces, facts, numbers, k) {
      assert pieces[k] in pieces;
      SilentSourced(pieces, facts, numbers, k);
    }
    if FieldsSourced(pieces, facts, numbers) {
      forall k | 0 <= k < |pieces|
        ensures SourcedIds(pieces[k].text, facts.AllowedIdentifiers())
        ensures SourcedText(LeftOf(pieces, facts.AllowedEntities())[k], facts.AllowedStatuses(), numbers)
      {
        assert PieceSourced(pieces, facts, numbers, k);
      }
    }
  }

  // ---------------------------------------------------------------------------------
  // Names that keep to their fields
  // ---------------------------------------------------------------------------------

  /** What a field holds when the facts are named as they should be. */
  ghost predicate Fits(p: Piece, facts: FactSet, numbers: set<real>) {
    match p.kind
    case Said => true
    case Plain => Silent(p.text, facts.AllowedStatuses(), numbers)
    case Entity => p.text in facts.AllowedEntities() && NoIdentifier(p.text)
    case Id => IsIdentifier(p.text) && p.text in facts.AllowedIdentifiers()
    case Amount(v) => p.text == FormatAmount(v)
  }

  /** With no name across an edge, a piece is masked as it would be alone. */
  lemma AloneTokens(pieces: seq<Piece>, names: set<string>, k: nat)
    requires UncutParts(BlankedOf(pieces), names) && k < |pieces| && NoIdentifier(pieces[k].text)
    ensures Words(LeftOf(pieces, names)[k]) == Words(Mask(pieces[k].text, names))
    ensures Numerals(LeftOf(pieces, names)[k]) == Numerals(Mask(pieces[k].text, names))
  {
    BlankNothing(pieces[k].text);
    RemnantsAlone(BlankedOf(pieces), names, k);
    TokensBeforeEnd(LeftOf(pieces, names)[k], names);
  }

  lemma IdSourced(pieces: seq<Piece>, facts: FactSet, numbers: set<real>, k: nat)
    requires k < |pieces| && pieces[k].kind.Id? && Fits(pieces[k], facts, numbers)
    ensures PieceSourced(pieces, facts, numbers, k)
  {
    var names := facts.AllowedEntities();
    var parts, left := BlankedOf(pieces), LeftOf(pieces, names)[k];
    IdentifierWords(pieces[k].text);
    forall w ensures w !in Numerals(left) && (w in Words(left) ==> !IsStatus(w)) {
      RemnantInside(parts, names, 0, k, w);
      if Inside(w, " ") { BlankHoldsNothing(w); }
    }
  }

  lemma NoneToSource(t: string, ids: set<string>)
    requires NoIdentifier(t)
    ensures SourcedIds(t, ids)
  {
  }

  lemma AmountAlone(pieces: seq<Piece>, facts: FactSet, numbers: set<real>, k: nat, v: real)
    requires UncutParts(BlankedOf(pieces), facts.AllowedEntities()) && k < |pieces|
    requires pieces[k].text == FormatAmount(v)
    ensures PieceSourced(pieces, facts, numbers, k) <==> ReadsTrue(v, facts.AllowedEntities(), numbers)
  {
    AmountHasNoIdentifier(v);
    NoneToSource(pieces[k].text, facts.AllowedIdentifiers());
    AloneTokens(pieces, facts.AllowedEntities(), k);
    forall w | w in Words(Mask(FormatAmount(v), facts.AllowedEntities())) ensures !IsStatus(w) {
      MaskedWordInside(FormatAmount(v), facts.AllowedEntities(), w);
      AmountHoldsNoStatus(v, w);
    }
  }

  lemma FieldAlone(pieces: seq<Piece>, facts: FactSet, numbers: set<real>, k: nat)
    requires UncutParts(BlankedOf(pieces), facts.AllowedEntities()) && k < |pieces|
    requires IsField(pieces[k]) && Fits(pieces[k], facts, numbers)
    ensures PieceSourced(pieces, facts, numbers, k) <==>
            (pieces[k].kind.Amount? ==> ReadsTrue(pieces[k].kind.v, facts.AllowedEntities(), numbers))
  {
    match pieces[k].kind
    case Plain =>
      NoneToSource(pieces[k].text, facts.AllowedIdentifiers());
      SilentSourced(pieces, facts, numbers, k);
    case Entity =>
      NoneToSource(pieces[k].text, facts.AllowedIdentifiers());
      AloneTokens(pieces, facts.AllowedEntities(), k);
      WholeLeavesNothing(pieces[k].text, facts.AllowedEntities());
    case Id => IdSourced(pieces, facts, numbers, k);
    case Amount(v) => AmountAlone(pieces, facts, numbers, k, v);
  }

  /** Where no name stands across an edge, only the amounts matter, each by itself. */
  lemma WithinFields(pieces: seq<Piece>, facts: FactSet, numbers: set<real>)
    requires UncutParts(BlankedOf(pieces), facts.AllowedEntities())
    requires forall p :: p in pieces ==> Fits(p, facts, numbers)
    ensures FieldsSourced(pieces, facts, numbers) <==> AmountsSourced(pieces, facts.AllowedEntities(), numbers)
  {
    forall k | 0 <= k < |pieces| && IsField(pieces[k])
      ensures PieceSourced(pieces, facts, numbers, k) <==>
              (pieces[k].kind.Amount? ==> ReadsTrue(pieces[k].kind.v, facts.AllowedEntities(), numbers))
    {
      assert pieces[k] in pieces;
      FieldAlone(pieces, facts, numbers, k);
    }
    assert forall p :: p in pieces <==> exists k :: 0 <= k < |pieces| && pieces[k] == p;
  }

  // ---------------------------------------------------------------------------------
  // Names and amounts
  // ---------------------------------------------------------------------------------

  /** No sourced span stands inside `t`. */
  ghost predicate Untouched(t: string, spans: set<string>) {
    forall i, j :: 0 <= i <= j <= |t| ==> t[i..j] !in spans
  }

  lemma UntouchedStep(t: string, rest: string, spans: set<string>)
    requires t != "" && Untouched(t, spans) && rest == t[1..]
    ensures Untouched(rest, spans) && Longest(t, spans) <= 0
  {
    assert forall i, j :: 0 <= i <= j <= |rest| ==> rest[i..j] == t[i + 1..j + 1];
    assert forall k :: 0 <= k <= |t| ==> t[..k] == t[0..k];
  }

  lemma {:induction false} MaskUntouched(t: string, spans: set<string>)
    requires Untouched(t, spans) && "" !in spans
    ensures Mask(t, spans) == t
  {
    if t == "" {
      MaskEmpty(spans);
    } else {
      var rest := t[1..];
      UntouchedStep(t, rest, spans);
      MaskSplit(t, spans);
      MaskUntouched(rest, spans);
    }
  }

  lemma WrittenNumeral(v: real, w: string, numbers: set<real>)
    requires w == Fixed(Cents(v))
    ensures Numerals(FormatAmount(v)) == [w] && (SourcedNumeral(w, numbers) <==> Written(v) in numbers)
  {
    AmountRoundTrip(v);
  }

  /** An amount no name stands inside reads true exactly if its value, once written with two
      decimals, is sourced. */
  lemma UntouchedReads(v: real, names: set<string>, numbers: set<real>)
    requires Untouched(FormatAmount(v), names)
    ensures ReadsTrue(v, names, numbers) <==> Written(v) in numbers
  {
    var text, w := FormatAmount(v), Fixed(Cents(v));
    assert text[0..0] == "";
    MaskUntouched(text, names);
    WrittenNumeral(v, w, numbers);
    assert forall x :: x in Numerals(text) <==> x == w;
  }

  /** An amount that is itself a name is masked whole, and reads true whatever its value. */
  lemma NamedAmountReads(v: real, names: set<string>, numbers: set<real>)
    requires FormatAmount(v) in names
    ensures ReadsTrue(v, names, numbers)
  {
    WholeLeavesNothing(FormatAmount(v), names);
  }

  /** A name with a character amounts are not written with stands inside none. */
  predicate Lettered(e: string) { exists c | c in e :: !IsDigit(c) && c != '.' && c != '-' }

  lemma LetteredNamesMissAmounts(v: real, names: set<string>)
    requires forall e :: e in names ==> Lettered(e)
    ensures Untouched(FormatAmount(v), names)
  {
    var t := FormatAmount(v);
    AmountLetters(v);
    forall i, j | 0 <= i <= j <= |t| ensures t[i..j] !in names {
      assert forall c :: c in t[i..j] ==> c in t;
    }
  }

  // ---------------------------------------------------------------------------------
  // Names and edges
  // ---------------------------------------------------------------------------------

  /** The two characters that meet at the edge of a part do not stand together in `e`. */
  ghost predicate AwayFromEdges(e: string, parts: seq<string>) {
    parts == [] ||
    ((parts[0] != "" && Join(parts[1..]) != "" ==> !Inside([parts[0][|parts[0]| - 1], Join(parts[1..])[0]], e)) &&
     AwayFromEdges(e, parts[1..]))
  }

  lemma CrossingHoldsEdge(a: string, b: string, p: nat, e: nat)
    requires p < |a| < e <= |a| + |b|
    ensures b != "" && Inside([a[|a| - 1], b[0]], (a + b)[p..e])
  {
    var w, at := (a + b)[p..e], |a| - 1 - p;
    var pair := w[at..at + 2];
    assert pair == [w[at], w[at + 1]];
    assert w[at] == a[|a| - 1] && w[at + 1] == b[0];
    assert OccursAt([a[|a| - 1], b[0]], w, at);
  }

  lemma {:induction false} UncutByName(parts: seq<string>, names: set<string>)
    requires forall e :: e in names ==> UncutParts(parts, {e})
    ensures UncutParts(parts, names)
  {
    if parts == [] {
    } else {
      UncutByName(parts[1..], names);
      var a, b := parts[0], Join(parts[1..]);
      forall p, e | 0 <= p < |a| < e <= |a| + |b| ensures (a + b)[p..e] !in names {
        var w := (a + b)[p..e];
        assert w in names ==> Uncut(a, b, {w});
      }
    }
  }

  /** A name that holds no such pair never stands across an edge. */
  lemma {:induction false} AwayMeansUncut(e: string, parts: seq<string>)
    requires AwayFromEdges(e, parts)
    ensures UncutParts(parts, {e})
  {
    if parts == [] {
    } else {
      var a, b := parts[0], Join(parts[1..]);
      forall p, q | 0 <= p < |a| < q <= |a| + |b| ensures (a + b)[p..q] !in {e} {
        CrossingHoldsEdge(a, b, p, q);
      }
      AwayMeansUncut(e, parts[1..]);
    }
  }

  /** Word characters only, but for separators with a digit behind them. */
  predicate IsToken(e: string) { forall k :: 0 <= k < |e| ==> GoesOn(e, k) }

  predicate GoesOn(e: string, k: nat)
    requires k < |e|
  {
    IsWord(e[k]) || (IsSep(e[k]) && k + 1 < |e| && IsDigit(e[k + 1]))
  }

  lemma TokenStops(a: string, b: string, next: string, p: nat, q: nat)
    requires EndsLoose(a) || (StartsClosed(next) && b != "" && next <= b)
    requires p < |a| < q <= |a| + |b|
    ensures !IsToken((a + b)[p..q])
  {
    var w, at := (a + b)[p..q], |a| - p;
    if EndsLoose(a) {
      assert w[at - 1] == a[|a| - 1];
      assert !GoesOn(w, at - 1);
    } else {
      assert w[at] == b[0] == next[0];
      assert IsSep(next[0]) ==> b[1] == next[1];
      assert at + 1 < |w| ==> w[at + 1] == b[1];
      assert !GoesOn(w, at);
    }
  }

  /** A token never stands across the edge of a field: one of the two characters there is a
      blank or a punctuation mark. */
  lemma {:induction false} TokensUncut(e: string, parts: seq<string>)
    requires Alternates(parts) && IsToken(e)
    ensures UncutParts(parts, {e})
  {
    if parts == [] {
    } else {
      AlternatesRest(parts);
      TokensUncut(e, parts[1..]);
      var a, b := parts[0], Join(parts[1..]);
      forall p, q | 0 <= p < |a| < q <= |a| + |b| ensures (a + b)[p..q] !in {e} {
        assert EndsLoose(parts[0]) || StartsClosed(parts[1]);
        assert b == parts[1] + Join(parts[1..][1..]);
        TokenStops(a, b, parts[1], p, q);
      }
    }
  }
}

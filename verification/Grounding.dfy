/** Grounding layer 2: the finished text, scanned for literals and checked against the facts. */
module Grounding {
  import opened Text
  import opened Regex
  import opened Scanners
  import opened Decimals
  import opened Domain
  import opened FactSets

  const UNSOURCED := "not present in FactSet or TEMPLATE_SAFE_LITERALS"

  /** The status vocabulary, built from both enumerations. */
  const STATUS_WORDS: set<string> :=
    (set s: InvoiceStatus | true :: s.Word()) + (set s: SessionStatus | true :: s.Word())

  const STATUS: Regex := assert Paid.Word() in STATUS_WORDS; WholeWord(Alternation(STATUS_WORDS), true)

  /** The words of an alternation, longest first. */
  function Alternation(words: set<string>): (order: seq<string>)
    ensures words != {} ==> order != []
    ensures forall w :: w in order <==> w in words
    ensures LongestFirst(order, words)
  {
    var order := SortWords(true, words);
    assert words != {} ==> order != [] by {
      if words != {} {
        var w :| w in words;
        assert w in order;
      }
    }
    order
  }

  datatype Literal = Literal(text: string, kind: LiteralClass)

  datatype GroundingResult = GroundingResult(literals: seq<Literal>, violations: seq<Violation>)

  function MaskEntities(text: string, spans: set<string>): string {
    if spans == {} then text else Sub(AnyOf(Alternation(spans), false), text)
  }

  function Tag(texts: seq<string>, kind: LiteralClass): (r: seq<Literal>)
    ensures |r| == |texts|
    ensures forall k :: 0 <= k < |texts| ==> r[k] == Literal(texts[k], kind)
  {
    seq(|texts|, i requires 0 <= i < |texts| => Literal(texts[i], kind))
  }

  /** The text the number and status scans read. */
  function Masked(reply: string, facts: FactSet): string {
    MaskEntities(Sub(IDENTIFIER, reply), facts.AllowedEntities())
  }

  /** The literals of `reply`: identifiers, then numbers, then status words. */
  function Extract(reply: string, facts: FactSet): seq<Literal> {
    Tag(FindAll(IDENTIFIER, reply), IdentifierClass) +
    Tag(FindAll(NUMBER, Masked(reply, facts)), NumberClass) +
    Tag(FindAll(STATUS, Masked(reply, facts)), StatusClass)
  }

  function SafeNumbers(safe: set<string>): set<real> {
    set t | t in safe && AsDecimal(t).Some? :: AsDecimal(t).value
  }

  predicate IsGrounded(literal: Literal, numbers: set<real>, identifiers: set<string>, statuses: set<string>) {
    match literal.kind
    case NumberClass => AsDecimal(literal.text).Some? && AsDecimal(literal.text).value in numbers
    case IdentifierClass => literal.text in identifiers
    case StatusClass => LowerAll(literal.text) in statuses
  }

  predicate Grounded(literal: Literal, facts: FactSet, safe: set<string>) {
    IsGrounded(literal, facts.AllowedNumbers() + SafeNumbers(safe), facts.AllowedIdentifiers(), facts.AllowedStatuses())
  }

  /** One violation per ungrounded literal, in order. */
  function Unsourced(literals: seq<Literal>, facts: FactSet, safe: set<string>): (r: seq<Violation>)
    ensures r == [] <==> forall l :: l in literals ==> Grounded(l, facts, safe)
  {
    if literals == [] then []
    else
      var last := literals[|literals| - 1];
      assert forall l :: l in literals <==> l == last || l in literals[..|literals| - 1];
      Unsourced(literals[..|literals| - 1], facts, safe) +
      (if Grounded(last, facts, safe) then [] else [Violation(last.text, last.kind, UNSOURCED)])
  }

  function Check(reply: string, facts: FactSet, safe: set<string>): GroundingResult {
    var literals := Extract(reply, facts);
    GroundingResult(literals, Unsourced(literals, facts, safe))
  }

  lemma UnsourcedNext(literals: seq<Literal>, i: nat, facts: FactSet, safe: set<string>)
    requires i < |literals|
    ensures Unsourced(literals[..i + 1], facts, safe) ==
            Unsourced(literals[..i], facts, safe) +
            (if Grounded(literals[i], facts, safe) then []
             else [Violation(literals[i].text, literals[i].kind, UNSOURCED)])
  {
    var taken := literals[..i + 1];
    assert taken[..i] == literals[..i] && taken[i] == literals[i];
  }

  /** The verdict loop: every literal is judged once, in order. */
  method Judge(literals: seq<Literal>, facts: FactSet, safe: set<string>) returns (violations: seq<Violation>)
    ensures violations == Unsourced(literals, facts, safe)
  {
    var fromFacts := CollectNumbers(facts);
    var numbers := fromFacts + SafeNumbers(safe);
    var identifiers, statuses := facts.AllowedIdentifiers(), facts.AllowedStatuses();
    violations := [];
    for i := 0 to |literals|
      invariant violations == Unsourced(literals[..i], facts, safe)
    {
      UnsourcedNext(literals, i, facts, safe);
      if !IsGrounded(literals[i], numbers, identifiers, statuses) {
        violations := violations + [Violation(literals[i].text, literals[i].kind, UNSOURCED)];
      }
    }
    assert literals[..|literals|] == literals;
  }

  /** The checker: one extraction serves both the list of literals and the verdict on them. */
  method Verify(reply: string, facts: FactSet, safe: set<string>) returns (checked: GroundingResult)
    ensures checked == Check(reply, facts, safe)
  {
    var literals := Extract(reply, facts);
    var violations := Judge(literals, facts, safe);
    checked := GroundingResult(literals, violations);
  }

  // ---------------------------------------------------------------------------------
  // Extraction is tokenizing
  // ---------------------------------------------------------------------------------

  /** Up to case, the word of a member of a status enumeration. */
  predicate IsStatus(w: string) {
    (exists s: InvoiceStatus :: LowerAll(w) == s.Word()) || (exists s: SessionStatus :: LowerAll(w) == s.Word())
  }

  /** The vocabulary has exactly the members of both enumerations. */
  lemma StatusVocabulary(w: string)
    ensures IsStatus(w) <==> LowerAll(w) in STATUS_WORDS
    ensures IsStatus(w) <==> LowerAll(w) == "paid" || LowerAll(w) == "pending" || LowerAll(w) == "failed" ||
                             LowerAll(w) == "completed" || LowerAll(w) == "interrupted"
  {
    assert forall v :: v in STATUS_WORDS <==>
      (exists s: InvoiceStatus :: v == s.Word()) || (exists s: SessionStatus :: v == s.Word());
    assert Paid.Word() == "paid" && Pending.Word() == "pending" && InvoiceFailed.Word() == "failed";
    assert Completed.Word() == "completed" && Interrupted.Word() == "interrupted" && SessionFailed.Word() == "failed";
  }

  lemma LowerOfLower(w: string)
    requires forall k :: 0 <= k < |w| ==> 'a' <= w[k] <= 'z'
    ensures LowerAll(w) == w && forall c :: c in w ==> IsWord(c)
  {
  }

  predicate AllLower(w: string) { w != "" && forall k :: 0 <= k < |w| ==> 'a' <= w[k] <= 'z' }

  lemma StatusesAreLower(w: string)
    requires w in STATUS_WORDS
    ensures AllLower(w)
  {
    if w == "completed" {
      assert AllLower("completed");
    } else if w == "interrupted" {
      assert AllLower("interrupted");
    } else if w == "failed" {
      assert AllLower("failed");
    } else if w == "paid" {
      assert AllLower("paid");
    } else {
      assert w == "pending";
      assert AllLower("pending");
    }
  }

  lemma LowerOfStatus(w: string)
    requires w in STATUS_WORDS
    ensures LowerAll(w) == w && w != "" && forall c :: c in w ==> IsWord(c)
  {
    StatusesAreLower(w);
    LowerOfLower(w);
  }

  lemma StatusIsOneOf(w: string)
    ensures IsOneOf(Alternation(STATUS_WORDS), true, w) <==> IsStatus(w)
  {
    var order := Alternation(STATUS_WORDS);
    StatusVocabulary(w);
    forall v | v in order ensures LowerAll(v) == v { LowerOfStatus(v); }
    if IsStatus(w) {
      assert LowerAll(w) in order;
    }
  }

  lemma {:induction false} KeepSame(words: seq<string>, p: string -> bool, q: string -> bool)
    requires forall w :: p(w) <==> q(w)
    ensures Keep(words, p) == Keep(words, q)
  {
    if words == [] {
    } else {
      KeepSame(words[1..], p, q);
    }
  }

  /** The status scan finds exactly the words that are status words up to case. */
  lemma StatusFindsWords(text: string)
    ensures FindAll(STATUS, text) == Keep(Words(text), (w: string) => IsStatus(w))
  {
    var order := Alternation(STATUS_WORDS);
    assert Paid.Word() in STATUS_WORDS;
    forall w | w in order ensures w != "" && forall c | c in w :: IsWord(c) { LowerOfStatus(w); }
    WholeWordMatchesWords(order, true);
    WholeScan(STATUS, (w: string) => IsOneOf(order, true, w), text);
    forall w ensures IsOneOf(order, true, w) <==> IsStatus(w) { StatusIsOneOf(w); }
    KeepSame(Words(text), (w: string) => IsOneOf(order, true, w), (w: string) => IsStatus(w));
  }

  lemma {:induction false} MaskNothing(text: string)
    ensures Mask(text, {}) == text
  {
    if text == "" {
    } else {
      MaskNothing(text[1..]);
      assert text == [text[0]] + text[1..];
    }
  }

  lemma MaskedIsMask(reply: string, facts: FactSet)
    ensures Masked(reply, facts) == Mask(BlankIdentifiers(reply), facts.AllowedEntities())
  {
    IdentifierMatchesWords();
    WholeScan(IDENTIFIER, (w: string) => IsIdentifier(w), reply);
    var spans := facts.AllowedEntities();
    if spans == {} {
      MaskNothing(BlankIdentifiers(reply));
    } else {
      AnyLongestFirstMasks(Alternation(spans), spans, BlankIdentifiers(reply));
    }
  }

  /** What the three regex scans extract, in terms of the plain tokenizers. */
  lemma ExtractTokenizes(reply: string, facts: FactSet)
    ensures var masked := Mask(BlankIdentifiers(reply), facts.AllowedEntities());
            Extract(reply, facts) ==
            Tag(Identifiers(reply), IdentifierClass) +
            Tag(Numerals(masked), NumberClass) +
            Tag(Keep(Words(masked), (w: string) => IsStatus(w)), StatusClass)
  {
    MaskedIsMask(reply, facts);
    IdentifierMatchesWords();
    WholeScan(IDENTIFIER, (w: string) => IsIdentifier(w), reply);
    NumberFindsNumerals(Masked(reply, facts));
    StatusFindsWords(Masked(reply, facts));
  }

  // ---------------------------------------------------------------------------------
  // Nothing escapes a clean verdict
  // ---------------------------------------------------------------------------------

  function IdentifierSpans(reply: string): (r: seq<Span>)
    ensures InOrder(r, 0, |reply|)
  {
    Spans(IDENTIFIER, reply, 0, false)
  }

  function EntitySpans(text: string, entities: set<string>): (r: seq<Span>)
    ensures InOrder(r, 0, |text|)
  {
    if entities == {} then [] else Spans(AnyOf(Alternation(entities), false), text, 0, false)
  }

  lemma EntitySpansMask(text: string, entities: set<string>)
    ensures MaskEntities(text, entities) == Blank(text, EntitySpans(text, entities), 0)
  {
  }

  /** Position `i` of `s` is inside a span whose text satisfies `sourced`. */
  ghost predicate InSourced(spans: seq<Span>, s: string, i: nat, sourced: string -> bool) {
    exists k :: 0 <= k < |spans| && spans[k].start <= i < spans[k].end <= |s| &&
      sourced(s[spans[k].start..spans[k].end])
  }

  /** Where a digit of the reply can be, if it is accounted for: in a sourced identifier; in
      a sourced name or station of the identifier-blanked text; or in a numeral of the masked
      text whose value is sourced. */
  ghost predicate DigitAccounted(reply: string, facts: FactSet, safe: set<string>, i: nat)
  {
    var ids := IdentifierSpans(reply);
    var blanked := Blank(reply, ids, 0);
    var entities := EntitySpans(blanked, facts.AllowedEntities());
    var masked := Blank(blanked, entities, 0);
    var j := Landing(ids, 0, i);
    var k := Landing(entities, 0, j);
    var numbers := facts.AllowedNumbers() + SafeNumbers(safe);
    || InSourced(ids, reply, i, (t: string) => t in facts.AllowedIdentifiers())
    || InSourced(entities, blanked, j, (t: string) => t in facts.AllowedEntities())
    || InSourced(Spans(NUMBER, masked, 0, false), masked, k,
                 (t: string) => AsDecimal(t).Some? && AsDecimal(t).value in numbers)
  }

  lemma CoveredBySourced(re: Regex, s: string, i: nat, sourced: string -> bool)
    requires i < |s| && Covered(Spans(re, s, 0, false), i)
    requires forall t :: t in FindAll(re, s) ==> sourced(t)
    ensures InSourced(Spans(re, s, 0, false), s, i, sourced)
  {
    var spans := Spans(re, s, 0, false);
    var k :| 0 <= k < |spans| && spans[k].start <= i < spans[k].end;
    TextsAt(s, spans, 0, k);
    assert FindAll(re, s)[k] in FindAll(re, s);
  }

  lemma MatchedWord(order: seq<string>, text: string, i: nat, e: nat)
    requires order != [] && i <= |text| && e in Ends(AnyOf(order, false), text, i)
    ensures i <= e <= |text| && text[i..e] in order
  {
    AnyOfEnds(order, false, text, i, e);
  }

  lemma SpanIsWord(re: Regex, order: seq<string>, text: string, from: nat, advance: bool, k: nat)
    requires order != [] && re == AnyOf(order, false) && from <= |text| && k < |Spans(re, text, from, advance)|
    ensures var sp := Spans(re, text, from, advance)[k];
            sp.start <= sp.end <= |text| && text[sp.start..sp.end] in order
  {
    var spans := Spans(re, text, from, advance);
    SpansAreMatches(re, text, from, advance, k, spans);
    MatchedWord(order, text, spans[k].start, spans[k].end);
  }

  lemma CoveredByEntity(text: string, entities: set<string>, i: nat)
    requires i < |text| && Covered(EntitySpans(text, entities), i)
    ensures InSourced(EntitySpans(text, entities), text, i, (t: string) => t in entities)
  {
    var spans := EntitySpans(text, entities);
    var k :| 0 <= k < |spans| && spans[k].start <= i < spans[k].end;
    SpanIsWord(AnyOf(Alternation(entities), false), Alternation(entities), text, 0, false, k);
  }

  lemma NumberCovers(s: string, i: nat)
    requires i < |s| && IsDigit(s[i])
    ensures Covered(Spans(NUMBER, s, 0, false), i)
  {
    forall q: nat | q <= i
      ensures var m := MatchAt(NUMBER, s, q, false); (m.Hit? ==> m.end > q) && (q == i ==> m.Hit?)
    {
      NumberMatch(s, q);
    }
    SpansCover(NUMBER, s, 0, i);
  }

  lemma Tagged(texts: seq<string>, kind: LiteralClass, t: string)
    requires t in texts
    ensures Literal(t, kind) in Tag(texts, kind)
  {
    var k :| 0 <= k < |texts| && texts[k] == t;
    assert Tag(texts, kind)[k] == Literal(t, kind);
  }

  lemma CleanMeansGrounded(reply: string, facts: FactSet, safe: set<string>)
    requires Check(reply, facts, safe).violations == []
    ensures forall t :: t in FindAll(IDENTIFIER, reply) ==> Grounded(Literal(t, IdentifierClass), facts, safe)
    ensures forall t :: t in FindAll(NUMBER, Masked(reply, facts)) ==> Grounded(Literal(t, NumberClass), facts, safe)
    ensures forall t :: t in FindAll(STATUS, Masked(reply, facts)) ==> Grounded(Literal(t, StatusClass), facts, safe)
  {
    var a := Tag(FindAll(IDENTIFIER, reply), IdentifierClass);
    var b := Tag(FindAll(NUMBER, Masked(reply, facts)), NumberClass);
    var c := Tag(FindAll(STATUS, Masked(reply, facts)), StatusClass);
    assert Extract(reply, facts) == a + b + c;
    assert forall l :: l in a || l in b || l in c ==> Grounded(l, facts, safe);
    forall t | t in FindAll(IDENTIFIER, reply) ensures Literal(t, IdentifierClass) in a {
      Tagged(FindAll(IDENTIFIER, reply), IdentifierClass, t);
    }
    forall t | t in FindAll(NUMBER, Masked(reply, facts)) ensures Literal(t, NumberClass) in b {
      Tagged(FindAll(NUMBER, Masked(reply, facts)), NumberClass, t);
    }
    forall t | t in FindAll(STATUS, Masked(reply, facts)) ensures Literal(t, StatusClass) in c {
      Tagged(FindAll(STATUS, Masked(reply, facts)), StatusClass, t);
    }
  }

  lemma GroundedText(t: string, facts: FactSet, safe: set<string>)
    ensures Grounded(Literal(t, IdentifierClass), facts, safe) <==> t in facts.AllowedIdentifiers()
    ensures Grounded(Literal(t, StatusClass), facts, safe) <==> LowerAll(t) in facts.AllowedStatuses()
    ensures Grounded(Literal(t, NumberClass), facts, safe) <==>
            AsDecimal(t).Some? && AsDecimal(t).value in facts.AllowedNumbers() + SafeNumbers(safe)
  {
  }

  lemma CleanIdentifiers(reply: string, facts: FactSet, safe: set<string>)
    requires Check(reply, facts, safe).violations == []
    ensures forall t :: t in FindAll(IDENTIFIER, reply) ==> t in facts.AllowedIdentifiers()
  {
    CleanMeansGrounded(reply, facts, safe);
    var found := FindAll(IDENTIFIER, reply);
    forall t | t in found ensures t in facts.AllowedIdentifiers() {
      GroundedText(t, facts, safe);
    }
  }

  lemma CleanNumbers(reply: string, facts: FactSet, safe: set<string>)
    requires Check(reply, facts, safe).violations == []
    ensures forall t :: t in FindAll(NUMBER, Masked(reply, facts)) ==>
              AsDecimal(t).Some? && AsDecimal(t).value in facts.AllowedNumbers() + SafeNumbers(safe)
  {
    CleanMeansGrounded(reply, facts, safe);
    var found := FindAll(NUMBER, Masked(reply, facts));
    forall t | t in found
      ensures AsDecimal(t).Some? && AsDecimal(t).value in facts.AllowedNumbers() + SafeNumbers(safe)
    {
      GroundedText(t, facts, safe);
    }
  }

  lemma CleanStatuses(reply: string, facts: FactSet, safe: set<string>)
    requires Check(reply, facts, safe).violations == []
    ensures forall t :: t in FindAll(STATUS, Masked(reply, facts)) ==> LowerAll(t) in facts.AllowedStatuses()
  {
    CleanMeansGrounded(reply, facts, safe);
    var found := FindAll(STATUS, Masked(reply, facts));
    forall t | t in found ensures LowerAll(t) in facts.AllowedStatuses() {
      GroundedText(t, facts, safe);
    }
  }

  /** No digit escapes: with no violations, every digit of the reply is accounted for. */
  lemma NoDigitEscapes(reply: string, facts: FactSet, safe: set<string>, i: nat)
    requires Check(reply, facts, safe).violations == []
    requires i < |reply| && IsDigit(reply[i])
    ensures DigitAccounted(reply, facts, safe, i)
  {
    var ids := IdentifierSpans(reply);
    var blanked := Blank(reply, ids, 0);
    if Covered(ids, i) {
      CleanIdentifiers(reply, facts, safe);
      CoveredBySourced(IDENTIFIER, reply, i, (t: string) => t in facts.AllowedIdentifiers());
    } else {
      BlankKeepsUncovered(reply, ids, 0, i);
      var j := Landing(ids, 0, i);
      var entities := EntitySpans(blanked, facts.AllowedEntities());
      var masked := Blank(blanked, entities, 0);
      if Covered(entities, j) {
        CoveredByEntity(blanked, facts.AllowedEntities(), j);
      } else {
        BlankKeepsUncovered(blanked, entities, 0, j);
        EntitySpansMask(blanked, facts.AllowedEntities());
        var k := Landing(entities, 0, j);
        NumberCovers(masked, k);
        CleanNumbers(reply, facts, safe);
        var numbers := facts.AllowedNumbers() + SafeNumbers(safe);
        CoveredBySourced(NUMBER, masked, k, (t: string) => AsDecimal(t).Some? && AsDecimal(t).value in numbers);
      }
    }
  }

  /** No identifier and no status word escapes: with no violations, every identifier-shaped
      word of the reply is sourced, and so is every status word of the masked text, in
      whatever case it is written. */
  lemma NoWordEscapes(reply: string, facts: FactSet, safe: set<string>)
    requires Check(reply, facts, safe).violations == []
    ensures forall w :: w in Words(reply) && IsIdentifier(w) ==> w in facts.AllowedIdentifiers()
    ensures forall w :: w in Words(Mask(BlankIdentifiers(reply), facts.AllowedEntities())) && IsStatus(w) ==>
              LowerAll(w) in facts.AllowedStatuses()
  {
    CleanIdentifiers(reply, facts, safe);
    CleanStatuses(reply, facts, safe);
    IdentifierMatchesWords();
    WholeScan(IDENTIFIER, (w: string) => IsIdentifier(w), reply);
    MaskedIsMask(reply, facts);
    StatusFindsWords(Masked(reply, facts));
  }

  // ---------------------------------------------------------------------------------
  // The verdict lists exactly the ungrounded literals
  // ---------------------------------------------------------------------------------

  /** `at` picks the ungrounded literals, all of them and no other, in order. */
  ghost predicate Picks(at: seq<nat>, literals: seq<Literal>, facts: FactSet, safe: set<string>) {
    (forall i, j :: 0 <= i < j < |at| ==> at[i] < at[j]) &&
    (forall j :: 0 <= j < |at| ==> at[j] < |literals|) &&
    forall k :: 0 <= k < |literals| ==> (k in at <==> !Grounded(literals[k], facts, safe))
  }

  lemma PicksNext(at: seq<nat>, front: seq<Literal>, last: Literal, facts: FactSet, safe: set<string>)
    requires Picks(at, front, facts, safe)
    ensures Picks(if Grounded(last, facts, safe) then at else at + [|front|], front + [last], facts, safe)
  {
    var all, more := front + [last], if Grounded(last, facts, safe) then at else at + [|front|];
    forall k | 0 <= k < |all| ensures k in more <==> !Grounded(all[k], facts, safe) {
      if k < |front| { assert all[k] == front[k] && (k in more <==> k in at); }
    }
  }

  /** The violation of each picked literal. */
  ghost predicate Lists(violations: seq<Violation>, at: seq<nat>, literals: seq<Literal>) {
    |violations| == |at| &&
    forall j :: 0 <= j < |at| ==>
      at[j] < |literals| && violations[j].literal == literals[at[j]].text &&
      violations[j].literalClass == literals[at[j]].kind &&
      violations[j].reason == "not present in FactSet or TEMPLATE_SAFE_LITERALS"
  }

  lemma ListsNext(violations: seq<Violation>, at: seq<nat>, front: seq<Literal>, last: Literal)
    requires Lists(violations, at, front)
    ensures Lists(violations, at, front + [last])
    ensures Lists(violations + [Violation(last.text, last.kind, UNSOURCED)], at + [|front|], front + [last])
  {
  }

  lemma UnsourcedLast(front: seq<Literal>, last: Literal, literals: seq<Literal>, facts: FactSet, safe: set<string>)
    requires literals == front + [last]
    ensures Unsourced(literals, facts, safe) ==
            Unsourced(front, facts, safe) +
            if Grounded(last, facts, safe) then [] else [Violation(last.text, last.kind, UNSOURCED)]
  {
    assert literals[..|literals| - 1] == front && literals[|literals| - 1] == last;
  }

  /** The violations are the subsequence of the ungrounded literals, with nothing added, lost
      or reordered. */
  lemma {:induction false} ViolationsAreUngrounded(literals: seq<Literal>, facts: FactSet, safe: set<string>)
    returns (at: seq<nat>)
    ensures Picks(at, literals, facts, safe) && Lists(Unsourced(literals, facts, safe), at, literals)
  {
    if literals == [] {
      at := [];
    } else {
      var front, last := literals[..|literals| - 1], literals[|literals| - 1];
      assert literals == front + [last];
      var before := ViolationsAreUngrounded(front, facts, safe);
      PicksNext(before, front, last, facts, safe);
      UnsourcedLast(front, last, literals, facts, safe);
      ListsNext(Unsourced(front, facts, safe), before, front, last);
      at := if Grounded(last, facts, safe) then before else before + [|front|];
    }
  }

  // ---------------------------------------------------------------------------------
  // The safe list
  // ---------------------------------------------------------------------------------

  /** The safe list is a number list only: enlarging it leaves every identifier and status
      violation in place and can only drop number violations whose value it names. */
  lemma {:induction false} SafeListDropsNumbersOnly(literals: seq<Literal>, facts: FactSet, safe: set<string>,
                                                    more: set<string>)
    requires safe <= more
    ensures Unsourced(literals, facts, more) == Surviving(Unsourced(literals, facts, safe), more)
  {
    if literals == [] {
    } else {
      var front, last := literals[..|literals| - 1], literals[|literals| - 1];
      SafeListDropsNumbersOnly(front, facts, safe, more);
      assert SafeNumbers(safe) <= SafeNumbers(more);
      var v := Violation(last.text, last.kind, UNSOURCED);
      var before := Unsourced(front, facts, safe);
      if !Grounded(last, facts, safe) {
        assert (before + [v])[..|before|] == before;
      } else {
        assert before + [] == before;
      }
    }
  }

  /** The violations that are not numbers named by the safe list, in order. */
  function Surviving(violations: seq<Violation>, safe: set<string>): seq<Violation> {
    if violations == [] then []
    else
      var v := violations[|violations| - 1];
      Surviving(violations[..|violations| - 1], safe) +
      if v.literalClass.NumberClass? && AsDecimal(v.literal).Some? && AsDecimal(v.literal).value in SafeNumbers(safe)
      then [] else [v]
  }
}

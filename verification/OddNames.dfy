/**
 Names that reach into the amounts of a reply: a station that is part of one, a station that
 ends in one, a station that is one, and a station without a name.
 */
module OddNames {
  import opened Text
  import opened Regex
  import opened Scanners
  import opened Joints
  import opened Wrappers
  import opened Decimals
  import opened Domain
  import opened FactSets
  import opened Grounding
  import opened Pieces
  import opened Templates
  import opened Agreement

  // ---------------------------------------------------------------------------------
  // With an empty name among the facts
  // ---------------------------------------------------------------------------------

  lemma OneDigit(c: char)
    requires IsDigit(c)
    ensures AsDecimal([c]) == Some(DigitValue(c) as real)
  {
    var s := [c];
    assert s[1..] == "" && s[..0] == "" && s + "" == s;
    assert RunLen(DigitClass, s) == 1;
    assert ToNat(s) == DigitValue(c);
    assert Pow10(0) == 1;
  }

  /** Each digit of `s`, on its own, is an allowed number. */
  predicate DigitsAllowed(s: string, numbers: set<real>) {
    forall c | c in s :: IsDigit(c) ==> DigitValue(c) as real in numbers
  }

  lemma SinglesSourced(s: string, numbers: set<real>)
    ensures (forall w :: w in Singles(DigitClass, s) ==> SourcedNumeral(w, numbers)) <==> DigitsAllowed(s, numbers)
  {
    forall w | w in Singles(DigitClass, s) ensures |w| == 1 && w == [w[0]] && IsDigit(w[0]) && w[0] in s {
      SinglesExact(DigitClass, s, w);
    }
    forall c | c in s && IsDigit(c) ensures [c] in Singles(DigitClass, s) {
      SinglesExact(DigitClass, s, [c]);
    }
    forall c | IsDigit(c) ensures AsDecimal([c]) == Some(DigitValue(c) as real) {
      OneDigit(c);
    }
    if forall w :: w in Singles(DigitClass, s) ==> SourcedNumeral(w, numbers) {
      forall c | c in s && IsDigit(c) ensures DigitValue(c) as real in numbers {
        assert SourcedNumeral([c], numbers);
      }
    }
  }

  /** With an empty name among the sourced ones each digit is scanned alone: an amount reads
      true exactly if every digit the other names leave of it is, by itself, an allowed number. */
  lemma EmptyNameReads(v: real, names: set<string>, numbers: set<real>)
    requires "" in names
    ensures ReadsTrue(v, names, numbers) <==> DigitsAllowed(Left(FormatAmount(v), names), numbers)
  {
    EmptySpanIsolates(FormatAmount(v), names);
    SinglesSourced(Left(FormatAmount(v), names), numbers);
  }

  lemma NoStatusAlone(words: seq<string>, s: string)
    requires words == Singles(WordClass, s)
    ensures forall w :: w in words ==> !IsStatus(w)
  {
    forall w | w in words ensures !IsStatus(w) {
      SinglesExact(WordClass, s, w);
      assert |LowerAll(w)| == |w|;
      StatusVocabulary(w);
    }
  }

  lemma SinglesRead(left: string, masked: string, statuses: set<string>, numbers: set<real>)
    requires Numerals(masked) == Singles(DigitClass, left) && Words(masked) == Singles(WordClass, left)
    ensures SourcedText(masked, statuses, numbers) <==> DigitsAllowed(left, numbers)
  {
    SinglesSourced(left, numbers);
    NoStatusAlone(Words(masked), left);
  }

  /** The same for a whole reply, whatever its text: it passes exactly if its identifiers are
      sourced and every digit the names leave of it is an allowed number. No status word is
      ever found. */
  lemma EmptyNameVerdict(reply: string, facts: FactSet, safe: set<string>)
    requires "" in facts.AllowedEntities()
    ensures var left := Left(BlankIdentifiers(reply), facts.AllowedEntities());
            Check(reply, facts, safe).violations == [] <==>
            (forall w :: w in Identifiers(reply) ==> w in facts.AllowedIdentifiers()) &&
            DigitsAllowed(left, facts.AllowedNumbers() + SafeNumbers(safe))
  {
    var blanked, names := BlankIdentifiers(reply), facts.AllowedEntities();
    var masked, numbers := Mask(blanked, names), facts.AllowedNumbers() + SafeNumbers(safe);
    VerdictOnText(reply, facts, safe, numbers, masked);
    EmptySpanIsolates(blanked, names);
    SinglesRead(Left(blanked, names), masked, facts.AllowedStatuses(), numbers);
  }

  // ---------------------------------------------------------------------------------
  // One completed session
  // ---------------------------------------------------------------------------------

  function Visit(station: string, kwh: real, cost: real): FactSet {
    FactSet(Some("Ana"), Some("u_1"), [], [SessionFact("sess_1", station, kwh, cost, Completed)])
  }

  /** Whether the letter about the session passes its own check. */
  predicate Passes(facts: FactSet) {
    var letter := Render(SpecFor(SessionCompleted), facts);
    letter.Success? && Check(letter.value, facts, SpecFor(SessionCompleted).safe).violations == []
  }

  lemma VisitFacts(station: string, kwh: real, cost: real)
    ensures Visit(station, kwh, cost).AllowedEntities() == {station, "Ana"}
    ensures Visit(station, kwh, cost).AllowedNumbers() + SafeNumbers(SpecFor(SessionCompleted).safe) == {kwh, cost, 1.0}
    ensures ValuesOf(LatestSession, Visit(station, kwh, cost)) == map[KwhField := kwh, CostField := cost]
  {
    var facts := Visit(station, kwh, cost);
    assert facts.sessions[0] in facts.sessions;
    assert SafeNumbers({}) == {};
  }

  lemma SessionAmounts(facts: FactSet, values: map<Field, real>, names: set<string>, numbers: set<real>)
    requires values == ValuesOf(LatestSession, facts) && facts.sessions != []
    requires names == facts.AllowedEntities() &&
             numbers == facts.AllowedNumbers() + SafeNumbers(SpecFor(SessionCompleted).safe)
    ensures AmountsHold(SessionCompleted, facts) <==>
            ReadsTrue(facts.sessions[0].kwh, names, numbers) && ReadsTrue(facts.sessions[0].cost, names, numbers)
  {
    assert KwhField in values && CostField in values;
  }

  /** The conditions under which the letter is judged by its amounts. */
  ghost predicate Judged(facts: FactSet) {
    Chosen(SessionCompleted, facts) && WellNamed(LatestSession, facts) && NamesKeepToFields(SessionCompleted, facts)
  }

  lemma TokensAreJudged(facts: FactSet)
    requires Chosen(SessionCompleted, facts)
    requires forall e :: e in facts.AllowedEntities() ==> IsToken(e) && '_' !in e
    ensures Judged(facts)
  {
    forall e | e in facts.AllowedEntities() ensures NoIdentifier(e) {
      NoUnderscoreNoIdentifier(e);
    }
    OrdinaryNamesKeepToFields(SessionCompleted, facts);
  }

  lemma AnaIsToken()
    ensures IsToken("Ana") && '_' !in "Ana"
  {
  }

  lemma VisitIsChosen(station: string, kwh: real, cost: real, facts: FactSet)
    requires facts == Visit(station, kwh, cost)
    ensures Chosen(SessionCompleted, facts) && facts.AllowedEntities() == {station, "Ana"}
  {
    VisitFacts(station, kwh, cost);
  }

  lemma VisitIsJudged(station: string, kwh: real, cost: real, facts: FactSet)
    requires IsToken(station) && '_' !in station && facts == Visit(station, kwh, cost)
    ensures Judged(facts)
  {
    VisitIsChosen(station, kwh, cost, facts);
    AnaIsToken();
    TokensAreJudged(facts);
  }

  lemma JudgedByAmounts(facts: FactSet)
    requires Judged(facts)
    ensures Render(SpecFor(SessionCompleted), facts).Success? &&
            (Passes(facts) <==> AmountsHold(SessionCompleted, facts))
  {
    LayersAgree(SessionCompleted, facts);
    FieldsHoldByAmounts(SessionCompleted, facts);
  }

  /** The amounts of one visit read true. */
  ghost predicate BothRead(kwh: real, cost: real, names: set<string>) {
    ReadsTrue(kwh, names, {kwh, cost, 1.0}) && ReadsTrue(cost, names, {kwh, cost, 1.0})
  }

  /** The letter about a visit passes exactly if both its amounts read true. */
  lemma VisitVerdict(station: string, kwh: real, cost: real, facts: FactSet)
    requires IsToken(station) && '_' !in station && facts == Visit(station, kwh, cost)
    ensures Judged(facts) && Render(SpecFor(SessionCompleted), facts).Success?
    ensures Passes(facts) <==> BothRead(kwh, cost, {station, "Ana"})
  {
    VisitIsJudged(station, kwh, cost, facts);
    JudgedByAmounts(facts);
    VisitFacts(station, kwh, cost);
    SessionAmounts(facts, ValuesOf(LatestSession, facts), {station, "Ana"}, {kwh, cost, 1.0});
  }

  /** The letter is rendered, from facts that meet every condition, and is withheld. */
  ghost predicate Withheld(facts: FactSet) {
    Judged(facts) && Render(SpecFor(SessionCompleted), facts).Success? && !Passes(facts)
  }

  lemma MisreadIsWithheld(station: string, kwh: real, cost: real, facts: FactSet, names: set<string>)
    requires IsToken(station) && '_' !in station && facts == Visit(station, kwh, cost)
    requires names == {station, "Ana"} && !BothRead(kwh, cost, names)
    ensures Withheld(facts)
  {
    VisitVerdict(station, kwh, cost, facts);
  }

  // ---------------------------------------------------------------------------------
  // Three stations
  // ---------------------------------------------------------------------------------

  lemma AmountText()
    ensures FormatAmount(42.10) == "42.10"
  {
    assert Cents(42.10) == 4210;
    assert Digits(42) == "42";
  }

  lemma LongestFrom(t: string, names: set<string>, c: char)
    requires "" !in names && t != "" && t[0] == c && forall e :: e in names && e != "" ==> e[0] != c
    ensures Longest(t, names) <= 0
  {
    var n := Longest(t, names);
  }

  lemma LongestSome(t: string, names: set<string>, c: char)
    requires t != "" && t[0] == c && [c] in names
    ensures Longest(t, names) > 0
  {
    assert t[..1] == [c];
  }

  /** A name `2` leaves the `4` of `42` standing alone. */
  lemma TwoSplits(t: string, names: set<string>)
    requires |t| >= 2 && t[0] == '4' && t[1] == '2' && "" !in names && "2" in names
    requires forall e :: e in names && e != "" ==> e[0] != '4'
    ensures "4" in Numerals(Mask(t, names))
  {
    var rest := t[1..];
    LongestFrom(t, names, '4');
    assert [t[1]] == "2";
    LongestSome(rest, names, '2');
    MaskSplit(t, names);
    MaskSplit(rest, names);
    var tail := Mask(rest, names);
    NumeralsJoint("4", tail);
    TokensOfOne('4');
    assert Mask(t, names) == "4" + tail;
  }

  lemma FourIsUnsourced(names: set<string>, v: real)
    requires v == 42.10 && "4" in Numerals(Mask(FormatAmount(v), names))
    ensures !BothRead(v, v, names)
  {
    OneDigit('4');
    assert !SourcedNumeral("4", {v, v, 1.0});
  }

  lemma HonestAmount(v: real)
    requires v == 42.10
    ensures WholeHundredths(v) && |FormatAmount(v)| >= 2 && FormatAmount(v)[0] == '4' && FormatAmount(v)[1] == '2'
  {
    AmountText();
  }

  lemma TwoMisreads(v: real, names: set<string>)
    requires v == 42.10 && "" !in names && "2" in names && forall e :: e in names && e != "" ==> e[0] != '4'
    ensures !BothRead(v, v, names)
  {
    HonestAmount(v);
    TwoSplits(FormatAmount(v), names);
    FourIsUnsourced(names, v);
  }

  lemma EmptyMisreads(v: real, names: set<string>)
    requires v == 42.10 && "" in names && forall e :: e in names ==> '4' !in e
    ensures !BothRead(v, v, names)
  {
    HonestAmount(v);
    var text := FormatAmount(v);
    assert text[0] in text;
    EmptySpanIsolates(text, names);
    LeftLetters(text, names, '4');
    SinglesExact(DigitClass, Left(text, names), "4");
    FourIsUnsourced(names, v);
  }

  /** Without care for names the agreement fails, on a rendered reply and an honest amount: a
      station called `2` is masked out of `42.10`, and the `4` that is left is a violation. All
      other conditions hold. */
  lemma NameInsideAmount(facts: FactSet, amount: real)
    requires amount == 42.10 && facts == Visit("2", amount, amount)
    ensures Withheld(facts) && WholeHundredths(amount)
  {
    HonestAmount(amount);
    TwoMisreads(amount, {"2", "Ana"});
    MisreadIsWithheld("2", amount, amount, facts, {"2", "Ana"});
  }

  /** A station that is the amount is harmless: it masks the amount whole. */
  lemma NameIsAmount(facts: FactSet, amount: real)
    requires amount == 42.10 && facts == Visit("42.10", amount, amount)
    ensures Judged(facts) && Passes(facts)
  {
    AmountText();
    VisitVerdict("42.10", amount, amount, facts);
    NamedAmountReads(amount, {"42.10", "Ana"}, {amount, amount, 1.0});
  }

  /** A station without a name withholds the same `42.10`, scanned as `4`, `2`, `1` and `0`. */
  lemma EmptyNameWithholds(facts: FactSet, amount: real)
    requires amount == 42.10 && facts == Visit("", amount, amount)
    ensures Withheld(facts) && WholeHundredths(amount)
  {
    HonestAmount(amount);
    EmptyMisreads(amount, {"", "Ana"});
    MisreadIsWithheld("", amount, amount, facts, {"", "Ana"});
  }

  lemma SmallAmounts()
    ensures FormatAmount(1.0) == "1.00" && FormatAmount(0.0) == "0.00"
  {
    assert Cents(1.0) == 100 && Cents(0.0) == 0;
    assert Digits(1) == "1" && Digits(0) == "0";
  }

  lemma SmallDigits(v: real, names: set<string>, numbers: set<real>)
    requires "" in names && (FormatAmount(v) == "1.00" || FormatAmount(v) == "0.00")
    requires 0.0 in numbers && 1.0 in numbers
    ensures ReadsTrue(v, names, numbers)
  {
    EmptyNameReads(v, names, numbers);
    var left := Left(FormatAmount(v), names);
    forall c | c in left && IsDigit(c) ensures DigitValue(c) as real in numbers {
      LeftLetters(FormatAmount(v), names, c);
      assert c == '1' || c == '0';
    }
  }

  /** It lets `1.00` kWh for `0.00` pass: each of their digits is an allowed number. */
  lemma EmptyNamePasses(facts: FactSet, kwh: real, cost: real)
    requires kwh == 1.0 && cost == 0.0 && facts == Visit("", kwh, cost)
    ensures Judged(facts) && Passes(facts)
  {
    VisitVerdict("", kwh, cost, facts);
    SmallAmounts();
    SmallDigits(kwh, {"", "Ana"}, {kwh, cost, 1.0});
    SmallDigits(cost, {"", "Ana"}, {kwh, cost, 1.0});
  }

  // ---------------------------------------------------------------------------------
  // A station that runs across an edge
  // ---------------------------------------------------------------------------------

  /** Behind a blank, a text that starts with a character no name holds is scanned as it would
      be alone. */
  lemma ScannedAfter(a: string, b: string, names: set<string>, w: string)
    requires EndsLoose(a) && b != "" && forall e :: e in names ==> b[0] !in e
    requires w in Numerals(Mask(b, names))
    ensures w in Numerals(Mask(a + b, names))
  {
    forall p, e | 0 <= p < |a| < e <= |a| + |b| ensures (a + b)[p..e] !in names {
      assert (a + b)[p..e][|a| - p] == b[0];
    }
    UncutHead(a, b, names);
    HeadTokens(a, b, names, 0, w);
    assert b[0..] == b;
  }

  lemma DotAlone(t: string)
    requires |t| >= 4 && t[0] == '4' && t[1] == '2' && t[2] == '.' && t[3] == ' '
    ensures "42" in Numerals(t)
  {
    assert t[1..][1..] == t[2..] && RunLen(DigitClass, t[2..]) == 0;
    assert RunLen(DigitClass, t[1..]) == 1 && RunLen(DigitClass, t) == 2;
    assert RunLen(DigitClass, t[3..]) == 0;
    NumeralsSplit(t);
    assert t[..2] == "42";
  }

  lemma PlainStep(t: string, names: set<string>, rest: string)
    requires "" !in names && t != "" && rest == t[1..] && forall e :: e in names && e != "" ==> e[0] != t[0]
    ensures Mask(t, names) == [t[0]] + Mask(rest, names)
  {
    LongestFrom(t, names, t[0]);
    MaskSplit(t, names);
  }

  lemma KwhCharacters(t: string)
    requires "42.10 kWh" <= t
    ensures |t| >= 9 && t[0] == '4' && t[1] == '2' && t[2] == '.' && t[3..9] == "10 kWh"
  {
    assert t[3..9] == "42.10 kWh"[3..9];
  }

  lemma MaskedNext(ten: string, names: set<string>)
    requires "" !in names && "10 kWh" in names && |ten| >= 6 && ten[..6] == "10 kWh"
    ensures Mask(ten, names) != "" && Mask(ten, names)[0] == ' '
  {
    MaskSplit(ten, names);
  }

  lemma AcrossStarts(names: set<string>)
    requires names == {"10 kWh", "Ana"}
    ensures "" !in names && "10 kWh" in names && forall e :: e in names ==> e != "" && (e[0] == '1' || e[0] == 'A')
  {
  }

  lemma PlainThree(t: string, names: set<string>, ten: string)
    requires "" !in names && forall e :: e in names ==> e != "" && (e[0] == '1' || e[0] == 'A')
    requires |t| >= 3 && t[0] == '4' && t[1] == '2' && t[2] == '.' && ten == t[3..]
    ensures Mask(t, names) == "4" + ("2" + ("." + Mask(ten, names)))
  {
    var two, dot := t[1..], t[2..];
    assert two[1..] == dot && dot[1..] == ten;
    PlainStep(t, names, two);
    PlainStep(two, names, dot);
    PlainStep(dot, names, ten);
  }

  /** The station `10 kWh` cuts `42.10 kWh` after the point. */
  lemma CutAtPoint(t: string, names: set<string>)
    requires names == {"10 kWh", "Ana"} && "42.10 kWh" <= t
    ensures "42" in Numerals(Mask(t, names))
  {
    var ten := t[3..];
    KwhCharacters(t);
    assert ten[..6] == t[3..9];
    AcrossStarts(names);
    PlainThree(t, names, ten);
    MaskedNext(ten, names);
    DotAlone(Mask(t, names));
  }

  lemma FortyTwo()
    ensures AsDecimal("42") == Some(42.0)
  {
    var s := "42";
    assert s[1..] == "2" && s[..1] == "4" && s + "" == s && "2"[1..] == "" && "4"[..0] == "";
    assert RunLen(DigitClass, "2") == 1 && RunLen(DigitClass, s) == 2;
    assert ToNat("4") == 4 && ToNat(s) == 42;
    assert Pow10(0) == 1;
  }

  lemma PartsOfCompleted(context: Context)
    ensures |COMPLETED_BODY| == 9 && COMPLETED_BODY[5] == Slot(KwhField)
    ensures " kWh" <= PartText(COMPLETED_BODY[6], context)
  {
    assert COMPLETED_BODY[6] == Prose(CHARGED_AT);
    assert CHARGED_AT[0] == " kWh, " && " kWh" <= CHARGED_AT[0];
  }

  /** Prose stands in the blanked letter as it was written. */
  lemma ProseInLetter(name: ReplyTemplate, facts: FactSet, k: nat, context: Context)
    requires Chosen(name, facts) && ContextOf(SpecFor(name).context, facts) == Success(context)
    requires k < |SpecFor(name).body| && k % 2 == 0 && SpecFor(name).body[k].Prose?
    ensures k < |PiecesOf(name, facts)| && EndsLoose(BlankedOf(PiecesOf(name, facts))[k])
    ensures BlankedOf(PiecesOf(name, facts))[k] == PartText(SpecFor(name).body[k], context)
  {
    LetterIsClean(name, facts);
    Rendered(name, facts);
    ProsePieces(name, facts, NumbersFor(name, facts));
    assert GoodProse(PiecesOf(name, facts)[k], k, facts.AllowedStatuses(), NumbersFor(name, facts));
    BlankNothing(PiecesOf(name, facts)[k].text);
    PieceAt(name, facts, k);
  }

  lemma KwhText(facts: FactSet, context: Context)
    requires facts.sessions != [] && ContextOf(LatestSession, facts) == Success(context)
    ensures KwhField in context && context[KwhField] == FormatAmount(facts.sessions[0].kwh)
  {
  }

  lemma SlotText(field: Field, context: Context, values: map<Field, real>)
    requires field in context
    ensures PieceOf(Slot(field), context, values).text == context[field]
  {
  }

  lemma KwhInLetter(facts: FactSet, context: Context)
    requires Chosen(SessionCompleted, facts) && ContextOf(LatestSession, facts) == Success(context)
    requires COMPLETED_BODY[5] == Slot(KwhField) && 5 < |PiecesOf(SessionCompleted, facts)|
    ensures BlankedOf(PiecesOf(SessionCompleted, facts))[5] == FormatAmount(facts.sessions[0].kwh)
  {
    var v := facts.sessions[0].kwh;
    ChosenRenders(SessionCompleted, facts);
    KwhText(facts, context);
    PieceAt(SessionCompleted, facts, 5);
    SlotText(KwhField, context, ValuesOf(LatestSession, facts));
    AmountHasNoIdentifier(v);
    BlankNothing(FormatAmount(v));
  }

  /** The parts around the kWh of a letter. */
  lemma PartsAroundKwh(facts: FactSet, parts: seq<string>)
    requires Chosen(SessionCompleted, facts) && parts == BlankedOf(PiecesOf(SessionCompleted, facts))
    ensures |parts| == 9 && EndsLoose(parts[4]) && parts[5] == FormatAmount(facts.sessions[0].kwh) && " kWh" <= parts[6]
  {
    ChosenRenders(SessionCompleted, facts);
    Rendered(SessionCompleted, facts);
    var context := ContextOf(LatestSession, facts).value;
    PartsOfCompleted(context);
    BodiesTakeTurns(SessionCompleted);
    ProseInLetter(SessionCompleted, facts, 4, context);
    KwhInLetter(facts, context);
    ProseInLetter(SessionCompleted, facts, 6, context);
  }

  lemma FrontEndsLoose(parts: seq<string>)
    requires parts != [] && EndsLoose(parts[|parts| - 1])
    ensures EndsLoose(Join(parts))
  {
    var n := |parts| - 1;
    JoinTwo(parts[..n], parts[n..]);
    assert parts == parts[..n] + parts[n..] && parts[n..] == [parts[n]];
    assert Join(parts[n..]) == parts[n] + Join([]) == parts[n];
  }

  lemma FrontOfTwo(a: string, b: string, rest: string, whole: string)
    requires a == "42.10" && " kWh" <= b && whole == a + (b + rest)
    ensures "42.10 kWh" <= whole
  {
  }

  lemma CutInLetter(parts: seq<string>, names: set<string>)
    requires |parts| >= 7 && EndsLoose(parts[4]) && parts[5] == "42.10" && " kWh" <= parts[6]
    requires names == {"10 kWh", "Ana"}
    ensures "42" in Numerals(Mask(Join(parts), names))
  {
    var a, b := Join(parts[..5]), Join(parts[5..]);
    assert parts == parts[..5] + parts[5..];
    JoinTwo(parts[..5], parts[5..]);
    FrontEndsLoose(parts[..5]);
    assert parts[5..][1..] == parts[6..];
    FrontOfTwo(parts[5], parts[6], Join(parts[6..][1..]), b);
    CutAtPoint(b, names);
    assert b[0] == '4';
    ScannedAfter(a, b, names, "42");
  }

  lemma AcrossIsNamed(facts: FactSet, amount: real)
    requires amount == 42.10 && facts == Visit("10 kWh", amount, amount)
    ensures Chosen(SessionCompleted, facts) && WellNamed(LatestSession, facts)
  {
    VisitIsChosen("10 kWh", amount, amount, facts);
    NoUnderscoreNoIdentifier("10 kWh");
    NoUnderscoreNoIdentifier("Ana");
  }

  lemma AcrossIsLettered()
    ensures Lettered("10 kWh") && Lettered("Ana")
  {
    assert ' ' in "10 kWh" && 'A' in "Ana";
  }

  lemma VisitIsWhole(station: string, amount: real, facts: FactSet)
    requires amount == 42.10 && facts == Visit(station, amount, amount)
    ensures AllWholeHundredths(LatestSession, facts)
  {
    HonestAmount(amount);
    VisitFacts(station, amount, amount);
  }

  lemma LetteredMiss(station: string, amount: real, facts: FactSet)
    requires facts == Visit(station, amount, amount) && Lettered(station)
    ensures NamesMissAmounts(SessionCompleted, facts)
  {
    VisitIsChosen(station, amount, amount, facts);
    AcrossIsLettered();
    LetteredMissAmounts(SessionCompleted, facts);
  }

  lemma AcrossMissesAmounts(facts: FactSet, amount: real)
    requires amount == 42.10 && facts == Visit("10 kWh", amount, amount)
    ensures NamesMissAmounts(SessionCompleted, facts) && AllWholeHundredths(LatestSession, facts)
    ensures AmountsHold(SessionCompleted, facts)
  {
    VisitIsWhole("10 kWh", amount, facts);
    AcrossIsLettered();
    LetteredMiss("10 kWh", amount, facts);
    WholeAmountsHold(SessionCompleted, facts);
  }

  lemma FortyTwoIsUnsourced(masked: string, v: real, statuses: set<string>)
    requires v == 42.10 && "42" in Numerals(masked)
    ensures !SourcedText(masked, statuses, {v, v, 1.0})
  {
    FortyTwo();
    assert !SourcedNumeral("42", {v, v, 1.0});
  }

  lemma UnsourcedIsRefused(facts: FactSet, amount: real, reply: string, masked: string)
    requires amount == 42.10 && facts == Visit("10 kWh", amount, amount)
    requires masked == Mask(BlankIdentifiers(reply), facts.AllowedEntities()) && "42" in Numerals(masked)
    ensures Check(reply, facts, SpecFor(SessionCompleted).safe).violations != []
  {
    VisitFacts("10 kWh", amount, amount);
    FortyTwoIsUnsourced(masked, amount, facts.AllowedStatuses());
    VerdictOnText(reply, facts, SpecFor(SessionCompleted).safe, {amount, amount, 1.0}, masked);
  }

  /** A station can also spoil an amount it does not stand inside: `10 kWh` is masked across the
      edge of `42.10 kWh`, and the `42` that is left is a violation. The amount is honest, no
      name stands inside it, and by itself it reads true. */
  lemma NameAcrossEdge(facts: FactSet, amount: real)
    requires amount == 42.10 && facts == Visit("10 kWh", amount, amount)
    ensures Chosen(SessionCompleted, facts) && WellNamed(LatestSession, facts)
    ensures AllWholeHundredths(LatestSession, facts)
    ensures NamesMissAmounts(SessionCompleted, facts) && AmountsHold(SessionCompleted, facts)
    ensures Render(SpecFor(SessionCompleted), facts).Success? && !Passes(facts)
  {
    AcrossIsNamed(facts, amount);
    AcrossMissesAmounts(facts, amount);
    VisitFacts("10 kWh", amount, amount);
    LetterIsClean(SessionCompleted, facts);
    var pieces := PiecesOf(SessionCompleted, facts);
    AmountText();
    PartsAroundKwh(facts, BlankedOf(pieces));
    CutInLetter(BlankedOf(pieces), facts.AllowedEntities());
    BlankedReply(pieces, facts, NumbersFor(SessionCompleted, facts));
    UnsourcedIsRefused(facts, amount, Join(TextsOf(pieces)), Mask(Join(BlankedOf(pieces)), facts.AllowedEntities()));
  }
}

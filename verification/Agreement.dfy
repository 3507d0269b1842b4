/**
 The two grounding layers agree: a reply rendered from the facts passes the check against the
 same facts, exactly when what the sourced names leave of its interpolated fields is sourced.
 With ordinary names this is whether its amounts survive the rounding to two decimals.
 */
module Agreement {
  import opened Text
  import opened Scanners
  import opened Joints
  import opened Wrappers
  import opened Decimals
  import opened Domain
  import opened FactSets
  import opened Grounding
  import opened Pieces
  import opened Templates
  import opened ProseFacts

  // ---------------------------------------------------------------------------------
  // Conditions
  // ---------------------------------------------------------------------------------

  /** The condition under which the agent picks each template. */
  predicate Chosen(name: ReplyTemplate, facts: FactSet) {
    facts.userName.Some? && facts.userName.value != "" &&
    match name
    case BillingAllPaid => facts.invoices != [] && forall f | f in facts.invoices :: f.status == Paid
    case BillingFailed => exists f | f in facts.invoices :: f.status == InvoiceFailed
    case BillingPending => exists f | f in facts.invoices :: f.status == Pending
    case SessionCompleted => facts.sessions != [] && facts.sessions[0].status == Completed
    case SessionInterrupted => facts.sessions != [] && facts.sessions[0].status != Completed
  }

  /** Text without a digit, an identifier or, anywhere inside it, a status word. */
  ghost predicate PlainText(t: string) {
    NoIdentifier(t) && (forall k :: 0 <= k < |t| ==> !IsDigit(t[k])) && forall w :: Inside(w, t) ==> !IsStatus(w)
  }

  /** Names and stations hold no identifier; cited invoices have an id of
      the fixture shape and a plain currency. */
  ghost predicate WellNamed(selector: Selector, facts: FactSet) {
    (forall e :: e in facts.AllowedEntities() ==> NoIdentifier(e)) &&
    match selector
    case InvoiceWith(status) =>
      var cited := First(facts.invoices, status);
      cited.Success? ==> IsIdentifier(cited.value.invoiceId) && PlainText(cited.value.currency)
    case _ => true
  }

  /** The amounts a template writes. */
  function ValuesOf(selector: Selector, facts: FactSet): map<Field, real> {
    match selector
    case NameOnly => map[]
    case InvoiceWith(status) =>
      var cited := First(facts.invoices, status);
      if cited.Success? then map[AmountField := cited.value.amount] else map[]
    case LatestSession =>
      if facts.sessions == [] then map[]
      else map[KwhField := facts.sessions[0].kwh, CostField := facts.sessions[0].cost]
  }

  function PieceOf(part: Part, context: Context, values: map<Field, real>): Piece
    requires part.Slot? ==> part.field in context
  {
    var text := PartText(part, context);
    match part
    case Prose(_) => Piece(text, Said)
    case Slot(field) =>
      match field
      case NameField => Piece(text, Entity)
      case StationField => Piece(text, Entity)
      case InvoiceIdField => Piece(text, Id)
      case CurrencyField => Piece(text, Plain)
      case StatusField => Piece(text, Plain)
      case _ => if field in values then Piece(text, Amount(values[field])) else Piece(text, Plain)
  }

  function PiecesOf(name: ReplyTemplate, facts: FactSet): seq<Piece> {
    var spec := SpecFor(name);
    var context := ContextOf(spec.context, facts);
    if context.Failure? || !Fillable(spec.body, context.value) then []
    else
      var values := ValuesOf(spec.context, facts);
      seq(|spec.body|, i requires 0 <= i < |spec.body| => PieceOf(spec.body[i], context.value, values))
  }

  /** In the identifier-blanked reply no sourced name or station stands across the edge of an
      interpolated field. */
  ghost predicate NamesKeepToFields(name: ReplyTemplate, facts: FactSet) {
    UncutParts(BlankedOf(PiecesOf(name, facts)), facts.AllowedEntities())
  }

  // ---------------------------------------------------------------------------------
  // Prose
  // ---------------------------------------------------------------------------------

  lemma {:induction false} JoinLetters(lines: seq<string>, c: char)
    requires c in Join(lines)
    ensures exists k :: 0 <= k < |lines| && c in lines[k]
  {
    if lines != [] && c !in lines[0] {
      JoinLetters(lines[1..], c);
      var k :| 0 <= k < |lines[1..]| && c in lines[1..][k];
      assert c in lines[k + 1];
    }
  }

  lemma {:induction false} JoinEdges(lines: seq<string>)
    requires lines != [] && forall k :: 0 <= k < |lines| ==> EndsLoose(lines[k])
    ensures EndsLoose(Join(lines))
    ensures StartsClosed(lines[0]) ==> StartsClosed(Join(lines))
  {
    var rest := lines[1..];
    if rest == [] {
      assert Join(lines) == lines[0];
    } else {
      JoinEdges(rest);
      assert Join(lines)[|Join(lines)| - 1] == Join(rest)[|Join(rest)| - 1];
    }
  }

  lemma SilentJoin(lines: seq<string>, statuses: set<string>, numbers: set<real>)
    requires SilentLines(lines, statuses, numbers)
    ensures Silent(Join(lines), statuses, numbers)
  {
    var t := Join(lines);
    if '_' in t { JoinLetters(lines, '_'); }
    NoUnderscoreNoIdentifier(t);
    forall w | Inside(w, t) && NumeralShape(w) ensures AsDecimal(w).Some? && AsDecimal(w).value in numbers {
      NumeralHasNoSpace(w);
      InsideFragment(w, lines);
    }
    forall w | Inside(w, t) && IsStatus(w) ensures LowerAll(w) in statuses {
      StatusIsWord(w);
      InsideFragment(w, lines);
    }
  }

  lemma StatusIsWord(w: string)
    requires IsStatus(w)
    ensures w != "" && forall c :: c in w ==> IsWord(c)
  {
    StatusVocabulary(w);
    LowerOfStatus(LowerAll(w));
    forall c | c in w ensures IsWord(c) {
      var k :| 0 <= k < |w| && w[k] == c;
      assert LowerAll(w)[k] in LowerAll(w);
      LowerKeepsWord(c);
    }
  }

  /** The status word a template's prose says, if any, and the number. */
  predicate ProseSourced(name: ReplyTemplate, statuses: set<string>, numbers: set<real>) {
    match name
    case BillingAllPaid => "paid" in statuses
    case BillingFailed => "failed" in statuses
    case BillingPending => "pending" in statuses && 3.0 in numbers
    case SessionCompleted => "completed" in statuses
    case SessionInterrupted => true
  }

  lemma BodyProse(name: ReplyTemplate, statuses: set<string>, numbers: set<real>)
    requires ProseSourced(name, statuses, numbers)
    ensures forall p :: p in SpecFor(name).body && p.Prose? ==> SilentLines(p.lines, statuses, numbers)
  {
    SharedLines(statuses, numbers);
    assert SilentLines(GREETING, statuses, numbers) && SilentLines(FOR, statuses, numbers) &&
           SilentLines(SPACE, statuses, numbers);
    match name
    case BillingAllPaid => AllPaidText(statuses, numbers);
    case BillingFailed => InvoiceOpening(statuses, numbers); FailedText(statuses, numbers);
    case BillingPending => InvoiceOpening(statuses, numbers); PendingText(statuses, numbers);
    case SessionCompleted =>
      SessionOpening(statuses, numbers); CompletedText(statuses, numbers);
      ChargedAt(statuses, numbers); CompletedClose(statuses, numbers);
    case SessionInterrupted =>
      SessionOpening(statuses, numbers); EndedEarly(statuses, numbers); AfterDelivering(statuses, numbers);
      YouWereCharged(statuses, numbers); InterruptedClose(statuses, numbers);
  }

  /** Prose and fields take turns, and prose after a field starts with no word or numeral. */
  predicate TakesTurns(body: seq<Part>) {
    forall k :: 0 <= k < |body| ==>
      (body[k].Prose? <==> k % 2 == 0) &&
      (body[k].Prose? ==> body[k].lines != [] && (k > 0 ==> StartsClosed(body[k].lines[0])))
  }

  lemma GreetingTurns()
    ensures StartsClosed(ALL_PAID_TEXT[0]) && StartsClosed(INVOICE_OPENING[0]) && StartsClosed(SESSION_OPENING[0])
  {
    assert StartsClosed(",\n\nThanks for getting ");
  }

  lemma InvoiceTurns()
    ensures StartsClosed(FOR[0]) && StartsClosed(SPACE[0]) && StartsClosed(FAILED_TEXT[0]) &&
            StartsClosed(PENDING_TEXT[0])
  {
  }

  lemma SessionTurns()
    ensures StartsClosed(COMPLETED_TEXT[0]) && StartsClosed(CHARGED_AT[0]) && StartsClosed(COMPLETED_CLOSE[0])
    ensures StartsClosed(ENDED_EARLY[0]) && StartsClosed(AFTER_DELIVERING[0])
    ensures StartsClosed(YOU_WERE_CHARGED[0]) && StartsClosed(INTERRUPTED_CLOSE[0])
  {
  }

  lemma SmallBodiesTakeTurns()
    ensures TakesTurns(ALL_PAID_BODY) && TakesTurns(FAILED_BODY) && TakesTurns(PENDING_BODY)
  {
    GreetingTurns();
    InvoiceTurns();
  }

  lemma SessionBodiesTakeTurns()
    ensures TakesTurns(COMPLETED_BODY) && TakesTurns(INTERRUPTED_BODY)
  {
    GreetingTurns();
    SessionTurns();
  }

  lemma BodiesTakeTurns(name: ReplyTemplate)
    ensures TakesTurns(SpecFor(name).body)
  {
    SmallBodiesTakeTurns();
    SessionBodiesTakeTurns();
  }

  // ---------------------------------------------------------------------------------
  // Rendering produces clean pieces
  // ---------------------------------------------------------------------------------

  lemma ChosenRenders(name: ReplyTemplate, facts: FactSet)
    requires Chosen(name, facts)
    ensures Render(SpecFor(name), facts).Success?
  {
    RendersExactlyWhen(name, facts);
  }

  lemma PieceTexts(body: seq<Part>, context: Context, values: map<Field, real>, pieces: seq<Piece>)
    requires Fillable(body, context) && |pieces| == |body|
    requires forall k :: 0 <= k < |body| ==> pieces[k] == PieceOf(body[k], context, values)
    ensures TextsOf(pieces) == Fill(body, context)
  {
  }

  lemma Rendered(name: ReplyTemplate, facts: FactSet)
    requires Render(SpecFor(name), facts).Success?
    ensures Render(SpecFor(name), facts) == Success(Join(TextsOf(PiecesOf(name, facts))))
    ensures |PiecesOf(name, facts)| == |SpecFor(name).body|
    ensures ContextOf(SpecFor(name).context, facts).Success?
    ensures Fillable(SpecFor(name).body, ContextOf(SpecFor(name).context, facts).value)
  {
    var spec := SpecFor(name);
    var context := ContextOf(spec.context, facts).value;
    PieceTexts(spec.body, context, ValuesOf(spec.context, facts), PiecesOf(name, facts));
  }

  ghost predicate GoodProse(p: Piece, k: nat, statuses: set<string>, numbers: set<real>) {
    p.kind.Said? && EndsLoose(p.text) && (k > 0 ==> StartsClosed(p.text)) && Silent(p.text, statuses, numbers)
  }

  lemma ProsePart(body: seq<Part>, context: Context, values: map<Field, real>, k: nat, statuses: set<string>,
                  numbers: set<real>)
    requires TakesTurns(body) && k < |body| && k % 2 == 0
    requires forall p :: p in body && p.Prose? ==> SilentLines(p.lines, statuses, numbers)
    ensures body[k].Prose? && GoodProse(PieceOf(body[k], context, values), k, statuses, numbers)
  {
    var part := body[k];
    assert part in body && part.Prose?;
    JoinEdges(part.lines);
    SilentJoin(part.lines, statuses, numbers);
  }

  lemma PieceAt(name: ReplyTemplate, facts: FactSet, k: nat)
    requires Render(SpecFor(name), facts).Success? && k < |PiecesOf(name, facts)|
    ensures var spec := SpecFor(name);
            k < |spec.body| && ContextOf(spec.context, facts).Success? &&
            Fillable(spec.body, ContextOf(spec.context, facts).value) &&
            PiecesOf(name, facts)[k] ==
              PieceOf(spec.body[k], ContextOf(spec.context, facts).value, ValuesOf(spec.context, facts))
  {
  }

  lemma ProsePieces(name: ReplyTemplate, facts: FactSet, numbers: set<real>)
    requires Render(SpecFor(name), facts).Success? && ProseSourced(name, facts.AllowedStatuses(), numbers)
    ensures var pieces := PiecesOf(name, facts);
            forall k :: 0 <= k < |pieces| && k % 2 == 0 ==> GoodProse(pieces[k], k, facts.AllowedStatuses(), numbers)
  {
    BodiesTakeTurns(name);
    BodyProse(name, facts.AllowedStatuses(), numbers);
    var spec := SpecFor(name);
    var body, pieces := spec.body, PiecesOf(name, facts);
    var context := ContextOf(spec.context, facts).value;
    var values := ValuesOf(spec.context, facts);
    forall k | 0 <= k < |pieces| && k % 2 == 0 ensures GoodProse(pieces[k], k, facts.AllowedStatuses(), numbers) {
      PieceAt(name, facts, k);
      ProsePart(body, context, values, k, facts.AllowedStatuses(), numbers);
    }
  }

  /** Silent prose in every other place keeps the fields apart, with or without identifiers. */
  lemma AlternatesByTurns(pieces: seq<Piece>, statuses: set<string>, numbers: set<real>)
    requires forall k :: 0 <= k < |pieces| && k % 2 == 0 ==> GoodProse(pieces[k], k, statuses, numbers)
    ensures Alternates(TextsOf(pieces)) && Alternates(BlankedOf(pieces))
  {
    forall k | 0 <= k < |pieces| && k % 2 == 0 ensures BlankedOf(pieces)[k] == pieces[k].text {
      assert GoodProse(pieces[k], k, statuses, numbers);
      BlankNothing(pieces[k].text);
    }
    forall k | 0 <= k < |pieces| - 1
      ensures EndsLoose(TextsOf(pieces)[k]) || StartsClosed(TextsOf(pieces)[k + 1])
      ensures EndsLoose(BlankedOf(pieces)[k]) || StartsClosed(BlankedOf(pieces)[k + 1])
    {
      var even := if k % 2 == 0 then k else k + 1;
      assert even % 2 == 0;
      assert GoodProse(pieces[even], even, statuses, numbers);
    }
  }

  lemma PiecesAlternate(name: ReplyTemplate, facts: FactSet, numbers: set<real>)
    requires Render(SpecFor(name), facts).Success? && ProseSourced(name, facts.AllowedStatuses(), numbers)
    ensures Alternates(TextsOf(PiecesOf(name, facts))) && Alternates(BlankedOf(PiecesOf(name, facts)))
  {
    ProsePieces(name, facts, numbers);
    AlternatesByTurns(PiecesOf(name, facts), facts.AllowedStatuses(), numbers);
  }

  lemma PlainIsSilent(t: string, statuses: set<string>, numbers: set<real>)
    requires PlainText(t)
    ensures Silent(t, statuses, numbers)
  {
    forall w | Inside(w, t) ensures !NumeralShape(w) {
      if w != "" {
        InsideLetters(w, t, 0);
        var j :| 0 <= j < |t| && t[j] == w[0];
      }
    }
  }

  lemma StatusWordIsSilent(s: string, numbers: set<real>, statuses: set<string>)
    requires s in statuses
    requires s == "interrupted" || s == "failed" || s == "completed"
    ensures Silent(s, statuses, numbers)
  {
    var line := s + " ";
    assert EndsLoose(line);
    if s == "interrupted" {
      assert line == "interrupted ";
      SaysInterrupted(line, statuses, numbers);
    } else if s == "failed" {
      assert line == "failed ";
      SaysFailed(line, statuses, numbers);
    } else {
      assert line == "completed ";
      SaysCompleted(line, statuses, numbers);
    }
    LineWithoutBlank(s, statuses, numbers);
  }

  lemma SaysInterrupted(line: string, statuses: set<string>, numbers: set<real>)
    requires EndsLoose(line) && "interrupted" in statuses && Avoids(line, 'a') && Avoids(line, 'c') && Avoids(line, 'g')
    ensures SilentLine(line, statuses, numbers)
  {
    forall w | Inside(w, line) ensures !NumeralShape(w) && (IsStatus(w) ==> LowerAll(w) == "interrupted") {
      LetterAbsent(line, w, 'a');
      LetterAbsent(line, w, 'c');
      LetterAbsent(line, w, 'g');
      if IsStatus(w) { StatusSpelling(w); }
    }
  }

  lemma LineWithoutBlank(s: string, statuses: set<string>, numbers: set<real>)
    requires SilentLine(s + " ", statuses, numbers)
    ensures Silent(s, statuses, numbers)
  {
    var line := s + " ";
    assert forall c :: c in s ==> c in line;
    NoUnderscoreNoIdentifier(s);
    forall w | Inside(w, s) ensures Inside(w, line) {
      var p: nat :| OccursAt(w, s, p);
      assert line[p..p + |w|] == s[p..p + |w|];
      assert OccursAt(w, line, p);
    }
  }

  // ---------------------------------------------------------------------------------
  // Fields
  // ---------------------------------------------------------------------------------

  lemma CitedInvoice(facts: FactSet, f: InvoiceFact)
    requires f in facts.invoices
    ensures f.invoiceId in facts.AllowedIdentifiers() && f.amount in facts.AllowedNumbers()
    ensures f.status.Word() in facts.AllowedStatuses()
  {
  }

  lemma CitedSession(facts: FactSet, f: SessionFact)
    requires f in facts.sessions
    ensures f.station in facts.AllowedEntities() && f.kwh in facts.AllowedNumbers() && f.cost in facts.AllowedNumbers()
    ensures f.status.Word() in facts.AllowedStatuses()
  {
  }

  function FieldPiece(selector: Selector, facts: FactSet, field: Field): Piece
    requires ContextOf(selector, facts).Success? && field in ContextOf(selector, facts).value
  {
    PieceOf(Slot(field), ContextOf(selector, facts).value, ValuesOf(selector, facts))
  }

  lemma NameFits(facts: FactSet, numbers: set<real>, p: Piece)
    requires facts.userName.Some? && p == Piece(facts.userName.value, Entity) && p.text != ""
    requires forall e :: e in facts.AllowedEntities() ==> NoIdentifier(e)
    ensures Fits(p, facts, numbers)
  {
    assert p.text in facts.AllowedEntities();
  }

  lemma InvoiceFieldFits(status: InvoiceStatus, facts: FactSet, numbers: set<real>, field: Field)
    requires var selector := InvoiceWith(status);
             ContextOf(selector, facts).Success? && WellNamed(selector, facts) &&
             field in ContextOf(selector, facts).value
    ensures Fits(FieldPiece(InvoiceWith(status), facts, field), facts, numbers)
  {
    var selector := InvoiceWith(status);
    var cited := First(facts.invoices, status).value;
    var p := FieldPiece(selector, facts, field);
    match field
    case NameField => NameFits(facts, numbers, p);
    case InvoiceIdField => CitedInvoice(facts, cited);
    case CurrencyField => PlainIsSilent(cited.currency, facts.AllowedStatuses(), numbers);
    case AmountField =>
      assert p == Piece(FormatAmount(cited.amount), Amount(cited.amount));
    case _ =>
  }

  lemma SessionFieldFits(facts: FactSet, numbers: set<real>, field: Field)
    requires ContextOf(LatestSession, facts).Success? && WellNamed(LatestSession, facts)
    requires field in ContextOf(LatestSession, facts).value
    ensures Fits(FieldPiece(LatestSession, facts, field), facts, numbers)
  {
    var cited := facts.sessions[0];
    var p := FieldPiece(LatestSession, facts, field);
    CitedSession(facts, cited);
    match field
    case NameField => NameFits(facts, numbers, p);
    case StationField => assert p == Piece(cited.station, Entity);
    case StatusField => StatusWordIsSilent(cited.status.Word(), numbers, facts.AllowedStatuses());
    case KwhField => assert p == Piece(FormatAmount(cited.kwh), Amount(cited.kwh));
    case CostField => assert p == Piece(FormatAmount(cited.cost), Amount(cited.cost));
    case _ =>
  }

  /** Every interpolated field is sourced text of its kind. */
  lemma FieldFits(selector: Selector, facts: FactSet, numbers: set<real>, field: Field)
    requires ContextOf(selector, facts).Success? && WellNamed(selector, facts)
    requires field in ContextOf(selector, facts).value
    ensures Fits(FieldPiece(selector, facts, field), facts, numbers)
  {
    match selector
    case NameOnly => NameFits(facts, numbers, FieldPiece(selector, facts, field));
    case InvoiceWith(status) => InvoiceFieldFits(status, facts, numbers, field);
    case LatestSession => SessionFieldFits(facts, numbers, field);
  }

  lemma RenderedPiecesFit(name: ReplyTemplate, facts: FactSet, numbers: set<real>)
    requires Render(SpecFor(name), facts).Success? && ProseSourced(name, facts.AllowedStatuses(), numbers)
    requires WellNamed(SpecFor(name).context, facts)
    ensures forall p :: p in PiecesOf(name, facts) ==> Fits(p, facts, numbers)
  {
    ProsePieces(name, facts, numbers);
    BodiesTakeTurns(name);
    var spec := SpecFor(name);
    var body, pieces := spec.body, PiecesOf(name, facts);
    forall k | 0 <= k < |pieces| ensures Fits(pieces[k], facts, numbers) {
      if k % 2 == 0 {
        assert GoodProse(pieces[k], k, facts.AllowedStatuses(), numbers);
      } else {
        assert body[k].Slot? && body[k] in body;
        assert pieces[k] in pieces;
        assert pieces[k] == FieldPiece(spec.context, facts, body[k].field);
        FieldFits(spec.context, facts, numbers, body[k].field);
      }
    }
  }

  lemma ChosenIsSourced(name: ReplyTemplate, facts: FactSet, numbers: set<real>)
    requires Chosen(name, facts) && (name == BillingPending ==> 3.0 in numbers)
    ensures ProseSourced(name, facts.AllowedStatuses(), numbers)
  {
    match name
    case BillingAllPaid => CitedInvoice(facts, facts.invoices[0]);
    case BillingFailed =>
      var f :| f in facts.invoices && f.status == InvoiceFailed;
      CitedInvoice(facts, f);
    case BillingPending =>
      var f :| f in facts.invoices && f.status == Pending;
      CitedInvoice(facts, f);
    case SessionCompleted => CitedSession(facts, facts.sessions[0]);
    case SessionInterrupted =>
  }

  /** Only the pending letter declares a number of its own, and it is three. */
  lemma SafeNumbersExact(name: ReplyTemplate, n: real)
    ensures n in SafeNumbers(SpecFor(name).safe) <==> name == BillingPending && n == 3.0
  {
    ThreeValue();
    assert SpecFor(BillingPending).safe == {"3"};
  }

  lemma PendingDeclaresThree()
    ensures 3.0 in SafeNumbers(SpecFor(BillingPending).safe)
  {
    ThreeValue();
    assert "3" in SpecFor(BillingPending).safe;
  }

  // ---------------------------------------------------------------------------------
  // The theorems
  // ---------------------------------------------------------------------------------

  function NumbersFor(name: ReplyTemplate, facts: FactSet): set<real> {
    facts.AllowedNumbers() + SafeNumbers(SpecFor(name).safe)
  }

  /** The fields of the letter hold: the identifiers in every interpolated field are sourced,
      and so is every numeral and every status word in what masking the whole letter leaves of
      the field. */
  ghost predicate FieldsHold(name: ReplyTemplate, facts: FactSet) {
    FieldsSourced(PiecesOf(name, facts), facts, NumbersFor(name, facts))
  }

  lemma LetterIsClean(name: ReplyTemplate, facts: FactSet)
    requires Chosen(name, facts)
    ensures Render(SpecFor(name), facts) == Success(Join(TextsOf(PiecesOf(name, facts))))
    ensures ProseSourced(name, facts.AllowedStatuses(), NumbersFor(name, facts))
    ensures Clean(PiecesOf(name, facts), facts, NumbersFor(name, facts))
  {
    var numbers := NumbersFor(name, facts);
    ChosenRenders(name, facts);
    if name == BillingPending { PendingDeclaresThree(); }
    ChosenIsSourced(name, facts, numbers);
    Rendered(name, facts);
    PiecesAlternate(name, facts, numbers);
    OnlyProseIsSaid(name, facts, numbers);
  }

  lemma SaidAt(body: seq<Part>, context: Context, values: map<Field, real>, k: nat)
    requires TakesTurns(body) && k < |body| && (body[k].Slot? ==> body[k].field in context)
    requires PieceOf(body[k], context, values).kind.Said?
    ensures k % 2 == 0
  {
  }

  lemma OnlyProseIsSaid(name: ReplyTemplate, facts: FactSet, numbers: set<real>)
    requires Render(SpecFor(name), facts).Success? && ProseSourced(name, facts.AllowedStatuses(), numbers)
    ensures forall p :: p in PiecesOf(name, facts) && p.kind.Said? ==> Silent(p.text, facts.AllowedStatuses(), numbers)
  {
    var spec, pieces := SpecFor(name), PiecesOf(name, facts);
    ProsePieces(name, facts, numbers);
    BodiesTakeTurns(name);
    var context := ContextOf(spec.context, facts).value;
    var values := ValuesOf(spec.context, facts);
    forall k | 0 <= k < |pieces| && pieces[k].kind.Said?
      ensures Silent(pieces[k].text, facts.AllowedStatuses(), numbers)
    {
      PieceAt(name, facts, k);
      SaidAt(spec.body, context, values, k);
      assert GoodProse(pieces[k], k, facts.AllowedStatuses(), numbers);
    }
  }

  /** The rendered letter passes the check. */
  predicate LetterPasses(name: ReplyTemplate, facts: FactSet)
    requires Render(SpecFor(name), facts).Success?
  {
    Check(Render(SpecFor(name), facts).value, facts, SpecFor(name).safe).violations == []
  }

  /** The layers agree exactly: for every template the facts call for, the rendered reply
      passes the check if and only if its fields hold. The prose never matters. */
  lemma LayersAgree(name: ReplyTemplate, facts: FactSet)
    requires Chosen(name, facts)
    ensures Render(SpecFor(name), facts).Success? && (LetterPasses(name, facts) <==> FieldsHold(name, facts))
  {
    LetterIsClean(name, facts);
    CleanVerdict(PiecesOf(name, facts), facts, SpecFor(name).safe);
  }

  /** The amounts a template writes read true: in what masking the sourced names leaves of
      each, by itself, every numeral is a sourced number. */
  ghost predicate AmountsHold(name: ReplyTemplate, facts: FactSet) {
    var values := ValuesOf(SpecFor(name).context, facts);
    forall field :: field in values ==>
      ReadsTrue(values[field], facts.AllowedEntities(), NumbersFor(name, facts))
  }

  /** With names as they should be, none of which stands across an edge, the amounts decide,
      each by itself. */
  lemma FieldsHoldByAmounts(name: ReplyTemplate, facts: FactSet)
    requires Chosen(name, facts) && WellNamed(SpecFor(name).context, facts) && NamesKeepToFields(name, facts)
    ensures FieldsHold(name, facts) <==> AmountsHold(name, facts)
  {
    var numbers := NumbersFor(name, facts);
    LetterIsClean(name, facts);
    RenderedPiecesFit(name, facts, numbers);
    WithinFields(PiecesOf(name, facts), facts, numbers);
    ValuesAreAmounts(name, facts, numbers);
  }

  lemma AmountsOfPieces(body: seq<Part>, context: Context, values: map<Field, real>, pieces: seq<Piece>,
                        names: set<string>, numbers: set<real>)
    requires Fillable(body, context) && |pieces| == |body|
    requires forall k :: 0 <= k < |body| ==> pieces[k] == PieceOf(body[k], context, values)
    requires forall field :: field in values ==>
               (field == AmountField || field == KwhField || field == CostField) && Slot(field) in body
    ensures AmountsSourced(pieces, names, numbers) <==>
            forall field :: field in values ==> ReadsTrue(values[field], names, numbers)
  {
    forall field | field in values ensures Piece(context[field], Amount(values[field])) in pieces {
      var k :| 0 <= k < |body| && body[k] == Slot(field);
      assert pieces[k] == PieceOf(Slot(field), context, values);
    }
    forall p | p in pieces && p.kind.Amount? ensures exists field :: field in values && values[field] == p.kind.v {
      var k :| 0 <= k < |pieces| && pieces[k] == p;
      assert p == PieceOf(body[k], context, values);
      assert body[k].Slot? && body[k].field in values;
    }
  }

  /** The amount pieces of a rendered body are its selector's values. */
  lemma ValuesAreAmounts(name: ReplyTemplate, facts: FactSet, numbers: set<real>)
    requires Render(SpecFor(name), facts).Success?
    ensures var values := ValuesOf(SpecFor(name).context, facts);
            AmountsSourced(PiecesOf(name, facts), facts.AllowedEntities(), numbers) <==>
            forall field :: field in values ==> ReadsTrue(values[field], facts.AllowedEntities(), numbers)
  {
    var spec := SpecFor(name);
    var body, pieces := spec.body, PiecesOf(name, facts);
    var context := ContextOf(spec.context, facts).value;
    var values := ValuesOf(spec.context, facts);
    forall field | field in values
      ensures (field == AmountField || field == KwhField || field == CostField) && Slot(field) in body
    {
      FieldHasSlot(name, facts, field);
    }
    AmountsOfPieces(body, context, values, pieces, facts.AllowedEntities(), numbers);
  }

  lemma BodySlots()
    ensures FAILED_BODY[5] == Slot(AmountField) && PENDING_BODY[5] == Slot(AmountField)
    ensures COMPLETED_BODY[5] == Slot(KwhField) && COMPLETED_BODY[7] == Slot(CostField)
    ensures INTERRUPTED_BODY[7] == Slot(KwhField) && INTERRUPTED_BODY[9] == Slot(CostField)
  {
  }

  lemma ValueFields(selector: Selector, facts: FactSet, field: Field)
    requires field in ValuesOf(selector, facts)
    ensures (selector.InvoiceWith? && field == AmountField) ||
            (selector.LatestSession? && (field == KwhField || field == CostField))
  {
  }

  lemma FieldHasSlot(name: ReplyTemplate, facts: FactSet, field: Field)
    requires field in ValuesOf(SpecFor(name).context, facts)
    ensures exists k :: 0 <= k < |SpecFor(name).body| && SpecFor(name).body[k] == Slot(field)
    ensures field == AmountField || field == KwhField || field == CostField
  {
    ValueFields(SpecFor(name).context, facts, field);
    BodySlots();
  }

  predicate WholeHundredths(v: real) { v >= 0.0 && (v * 100.0).Floor as real == v * 100.0 }

  lemma WholeValueSourced(selector: Selector, facts: FactSet, field: Field)
    requires field in ValuesOf(selector, facts) && WholeHundredths(ValuesOf(selector, facts)[field])
    ensures Written(ValuesOf(selector, facts)[field]) in facts.AllowedNumbers()
  {
    var v := ValuesOf(selector, facts)[field];
    assert v in facts.AllowedNumbers() by {
      match selector
      case NameOnly =>
      case InvoiceWith(status) => CitedInvoice(facts, First(facts.invoices, status).value);
      case LatestSession => CitedSession(facts, facts.sessions[0]);
    }
    WholeIsWritten(v);
  }

  lemma WholeIsWritten(v: real)
    requires WholeHundredths(v)
    ensures Written(v) == v
  {
    AmountRoundTrip(v);
  }

  /** No name stands inside an amount the template writes. */
  ghost predicate NamesMissAmounts(name: ReplyTemplate, facts: FactSet) {
    var values := ValuesOf(SpecFor(name).context, facts);
    forall field :: field in values ==> Untouched(FormatAmount(values[field]), facts.AllowedEntities())
  }

  /** The amounts, as written with two decimals, are sourced numbers. */
  ghost predicate AmountsSurviveRounding(name: ReplyTemplate, facts: FactSet) {
    var spec := SpecFor(name);
    var values := ValuesOf(spec.context, facts);
    forall field :: field in values ==> Written(values[field]) in NumbersFor(name, facts)
  }

  /** Where no name stands inside an amount, the amounts hold exactly if they survive being
      rounded to two decimals. */
  lemma AmountsHoldByRounding(name: ReplyTemplate, facts: FactSet)
    requires NamesMissAmounts(name, facts)
    ensures AmountsHold(name, facts) <==> AmountsSurviveRounding(name, facts)
  {
    var spec := SpecFor(name);
    var values := ValuesOf(spec.context, facts);
    forall field | field in values
      ensures ReadsTrue(values[field], facts.AllowedEntities(), NumbersFor(name, facts)) <==>
              Written(values[field]) in NumbersFor(name, facts)
    {
      UntouchedReads(values[field], facts.AllowedEntities(), NumbersFor(name, facts));
    }
  }

  /** An amount that masking the letter leaves as it is. */
  predicate LeftAlone(pieces: seq<Piece>, names: set<string>, k: nat)
    requires k < |pieces|
  {
    pieces[k].kind.Amount? && LeftOf(pieces, names)[k] == pieces[k].text
  }

  ghost predicate OtherFieldsHold(name: ReplyTemplate, facts: FactSet) {
    var pieces := PiecesOf(name, facts);
    forall k :: 0 <= k < |pieces| && IsField(pieces[k]) && !LeftAlone(pieces, facts.AllowedEntities(), k) ==>
      PieceSourced(pieces, facts, NumbersFor(name, facts), k)
  }

  predicate AllWholeHundredths(selector: Selector, facts: FactSet) {
    forall field :: field in ValuesOf(selector, facts) ==> WholeHundredths(ValuesOf(selector, facts)[field])
  }

  lemma FieldOfAmount(part: Part, context: Context, values: map<Field, real>, p: Piece) returns (field: Field)
    requires (part.Slot? ==> part.field in context) && p == PieceOf(part, context, values) && p.kind.Amount?
    ensures field in values && p.kind.v == values[field] && field in context && p.text == context[field]
  {
    field := part.field;
  }

  lemma ValueIsWritten(selector: Selector, facts: FactSet, context: Context, field: Field)
    requires ContextOf(selector, facts) == Success(context) && field in ValuesOf(selector, facts)
    ensures field in context && context[field] == FormatAmount(ValuesOf(selector, facts)[field])
  {
  }

  lemma PieceValue(name: ReplyTemplate, facts: FactSet, k: nat) returns (field: Field)
    requires Render(SpecFor(name), facts).Success? && k < |PiecesOf(name, facts)|
    requires PiecesOf(name, facts)[k].kind.Amount?
    ensures var values := ValuesOf(SpecFor(name).context, facts);
            field in values && PiecesOf(name, facts)[k].kind.v == values[field] &&
            PiecesOf(name, facts)[k].text == FormatAmount(values[field])
  {
    var spec := SpecFor(name);
    PieceAt(name, facts, k);
    var context := ContextOf(spec.context, facts).value;
    field := FieldOfAmount(spec.body[k], context, ValuesOf(spec.context, facts), PiecesOf(name, facts)[k]);
    ValueIsWritten(spec.context, facts, context, field);
  }

  lemma WrittenIsSourced(v: real, facts: FactSet, numbers: set<real>)
    requires Written(v) in numbers
    ensures SourcedText(FormatAmount(v), facts.AllowedStatuses(), numbers)
    ensures SourcedIds(FormatAmount(v), facts.AllowedIdentifiers())
  {
    var text := FormatAmount(v);
    AmountHasNoIdentifier(v);
    WrittenNumeral(v, Fixed(Cents(v)), numbers);
    forall w | w in Words(text) ensures !IsStatus(w) {
      WordStands(text, w);
      AmountHoldsNoStatus(v, w);
    }
  }

  lemma WholeAmountHolds(name: ReplyTemplate, facts: FactSet, k: nat)
    requires Render(SpecFor(name), facts).Success? && AllWholeHundredths(SpecFor(name).context, facts)
    requires k < |PiecesOf(name, facts)| && LeftAlone(PiecesOf(name, facts), facts.AllowedEntities(), k)
    ensures PieceSourced(PiecesOf(name, facts), facts, NumbersFor(name, facts), k)
  {
    var field := PieceValue(name, facts, k);
    WholeValueSourced(SpecFor(name).context, facts, field);
    WrittenIsSourced(ValuesOf(SpecFor(name).context, facts)[field], facts, NumbersFor(name, facts));
  }

  /** With non-negative amounts of whole hundredths, the reply passes exactly if every field
      holds but the amounts masking leaves as they are, which always do. So it passes with
      names as they should be, none of which stands across an edge or inside an amount. */
  lemma HonestReplyPasses(name: ReplyTemplate, facts: FactSet)
    requires Chosen(name, facts) && AllWholeHundredths(SpecFor(name).context, facts)
    ensures Render(SpecFor(name), facts).Success? && (LetterPasses(name, facts) <==> OtherFieldsHold(name, facts))
    ensures WellNamed(SpecFor(name).context, facts) && NamesKeepToFields(name, facts) && NamesMissAmounts(name, facts)
            ==> LetterPasses(name, facts)
  {
    LayersAgree(name, facts);
    LeftAloneHold(name, facts);
    if WellNamed(SpecFor(name).context, facts) && NamesKeepToFields(name, facts) && NamesMissAmounts(name, facts) {
      FieldsHoldByAmounts(name, facts);
      WholeAmountsHold(name, facts);
    }
  }

  lemma LeftAloneHold(name: ReplyTemplate, facts: FactSet)
    requires Render(SpecFor(name), facts).Success? && AllWholeHundredths(SpecFor(name).context, facts)
    ensures FieldsHold(name, facts) <==> OtherFieldsHold(name, facts)
  {
    var pieces := PiecesOf(name, facts);
    forall k | 0 <= k < |pieces| && LeftAlone(pieces, facts.AllowedEntities(), k)
      ensures PieceSourced(pieces, facts, NumbersFor(name, facts), k)
    {
      WholeAmountHolds(name, facts, k);
    }
  }

  lemma WholeAmountsHold(name: ReplyTemplate, facts: FactSet)
    requires NamesMissAmounts(name, facts) && AllWholeHundredths(SpecFor(name).context, facts)
    ensures AmountsHold(name, facts)
  {
    AmountsHoldByRounding(name, facts);
    WholeSurviveRounding(name, facts);
  }

  lemma WholeSurviveRounding(name: ReplyTemplate, facts: FactSet)
    requires AllWholeHundredths(SpecFor(name).context, facts)
    ensures AmountsSurviveRounding(name, facts)
  {
    forall field | field in ValuesOf(SpecFor(name).context, facts)
      ensures Written(ValuesOf(SpecFor(name).context, facts)[field]) in NumbersFor(name, facts)
    {
      WholeValueSourced(SpecFor(name).context, facts, field);
    }
  }

  // ---------------------------------------------------------------------------------
  // Conditions a caller can check on the names alone
  // ---------------------------------------------------------------------------------

  /** A name that cannot reach across the edge of a field: it is a single token, or the two
      characters that meet at an edge nowhere stand together in it. */
  ghost predicate Ordinary(e: string, parts: seq<string>) { IsToken(e) || AwayFromEdges(e, parts) }

  /** Ordinary names keep to their fields. */
  lemma OrdinaryNamesKeepToFields(name: ReplyTemplate, facts: FactSet)
    requires Chosen(name, facts)
    requires forall e :: e in facts.AllowedEntities() ==> Ordinary(e, BlankedOf(PiecesOf(name, facts)))
    ensures NamesKeepToFields(name, facts)
  {
    var parts := BlankedOf(PiecesOf(name, facts));
    LetterIsClean(name, facts);
    forall e | e in facts.AllowedEntities() ensures UncutParts(parts, {e}) {
      if IsToken(e) {
        TokensUncut(e, parts);
      } else {
        AwayMeansUncut(e, parts);
      }
    }
    UncutByName(parts, facts.AllowedEntities());
  }

  lemma LetteredMissAmounts(name: ReplyTemplate, facts: FactSet)
    requires forall e :: e in facts.AllowedEntities() ==> Lettered(e)
    ensures NamesMissAmounts(name, facts)
  {
    var values := ValuesOf(SpecFor(name).context, facts);
    forall field | field in values ensures Untouched(FormatAmount(values[field]), facts.AllowedEntities()) {
      LetteredNamesMissAmounts(values[field], facts.AllowedEntities());
    }
  }

  /** With ordinary names, none of which could be part of an amount, the reply passes exactly
      if the amounts survive being rounded to two decimals. */
  lemma OrdinaryReplyPasses(name: ReplyTemplate, facts: FactSet)
    requires Chosen(name, facts) && WellNamed(SpecFor(name).context, facts)
    requires forall e :: e in facts.AllowedEntities() ==>
               Lettered(e) && Ordinary(e, BlankedOf(PiecesOf(name, facts)))
    ensures Render(SpecFor(name), facts).Success?
    ensures LetterPasses(name, facts) <==> AmountsSurviveRounding(name, facts)
  {
    OrdinaryNamesKeepToFields(name, facts);
    LayersAgree(name, facts);
    FieldsHoldByAmounts(name, facts);
    LetteredMissAmounts(name, facts);
    AmountsHoldByRounding(name, facts);
  }
}

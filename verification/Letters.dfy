/** The five letters as the customer reads them, phrase by phrase. */
module Letters {
  import opened Wrappers
  import opened Decimals
  import opened Domain
  import opened FactSets
  import opened Joints
  import opened Templates

  function AllPaidLetter(name: string): string {
    "Hi " + name +
    Join([",\n\nThanks for getting ", "in touch. I've checked ", "your account and every ", "invoice on it is ",
          "paid, ", "with nothing ", "outstanding.\n\n", "If something still ", "looks wrong, reply to ",
          "this message and ", "we'll take another ", "look.\n\nBest regards,\n", "Support\n"])
  }

  function FailedLetter(name: string, id: string, amount: real, currency: string): string {
    "Hi " + name +
    Join([",\n\nThanks for getting ", "in touch. Invoice "]) + id + " for " + FormatAmount(amount) + " " + currency +
    Join([" has a ", "failed ", "payment, so that ", "amount is still ", "outstanding.\n\n", "You can retry it from ",
          "the billing section ", "of the app. If it ", "keeps failing, reply ", "here and we'll ", "help ",
          "sort it out.\n\n", "Best regards,\n", "Support\n"])
  }

  function PendingLetter(name: string, id: string, amount: real, currency: string): string {
    "Hi " + name +
    Join([",\n\nThanks for getting ", "in touch. Invoice "]) + id + " for " + FormatAmount(amount) + " " + currency +
    Join([" is still ", "pending ", "and has not been ", "collected yet.\n\n", "Pending ", "invoices are ",
          "normally settled ", "automatically ", "within ", "3 ", "business days. ", "If it is still ",
          "pending ", "after that, reply ", "here and we'll take ", "a look.\n\n", "Best regards,\n", "Support\n"])
  }

  function CompletedLetter(name: string, station: string, kwh: real, cost: real): string {
    "Hi " + name +
    Join([",\n\nThanks for getting ", "in touch. Your most ", "recent charging ", "session at "]) + station +
    Join([" ", "completed ", "normally: it ", "delivered "]) + FormatAmount(kwh) +
    Join([" kWh, ", "charged at "]) + FormatAmount(cost) +
    Join([".\n\n", "If your app shows ", "something ", "different, ", "reply here with the ", "details and ",
          "we'll investigate.\n\n", "Best regards,\n", "Support\n"])
  }

  function EndedEarlyLetter(name: string, station: string, status: string, kwh: real, cost: real): string {
    "Hi " + name +
    Join([",\n\nThanks for getting ", "in touch. Your most ", "recent charging ", "session at "]) + station +
    Join([" ended early with a ", "status of "]) + status +
    Join([", after ", "delivering "]) + FormatAmount(kwh) +
    Join([" kWh.\n\n", "You were charged "]) + FormatAmount(cost) +
    Join([" for the energy ", "actually delivered. ", "If that ", "does ", "not look right, ", "reply here ",
          "and we'll ", "review the session ", "and correct any ", "overcharge.\n\n", "Best regards,\n", "Support\n"])
  }

  // ---------------------------------------------------------------------------------
  // Joining a few parts
  // ---------------------------------------------------------------------------------

  lemma JoinLast(front: seq<string>, last: string, all: seq<string>)
    requires all == front + [last]
    ensures Join(all) == Join(front) + last
  {
    JoinTwo(front, [last]);
    assert [last][1..] == [] && last + "" == last;
  }

  lemma JoinThree(a: string, b: string, c: string)
    ensures Join([a, b, c]) == a + b + c
  {
    JoinLast([], a, [a]);
    JoinLast([a], b, [a, b]);
    JoinLast([a, b], c, [a, b, c]);
    assert "" + a == a;
  }

  lemma JoinFive(a: string, b: string, c: string, d: string, e: string)
    ensures Join([a, b, c, d, e]) == a + b + c + d + e
  {
    JoinThree(a, b, c);
    JoinLast([a, b, c], d, [a, b, c, d]);
    JoinLast([a, b, c, d], e, [a, b, c, d, e]);
  }

  lemma JoinSeven(a: string, b: string, c: string, d: string, e: string, f: string, g: string)
    ensures Join([a, b, c, d, e, f, g]) == a + b + c + d + e + f + g
  {
    JoinFive(a, b, c, d, e);
    JoinLast([a, b, c, d, e], f, [a, b, c, d, e, f]);
    JoinLast([a, b, c, d, e, f], g, [a, b, c, d, e, f, g]);
  }

  lemma JoinNine(a: string, b: string, c: string, d: string, e: string, f: string, g: string, h: string, i: string)
    ensures Join([a, b, c, d, e, f, g, h, i]) == a + b + c + d + e + f + g + h + i
  {
    JoinSeven(a, b, c, d, e, f, g);
    JoinLast([a, b, c, d, e, f, g], h, [a, b, c, d, e, f, g, h]);
    JoinLast([a, b, c, d, e, f, g, h], i, [a, b, c, d, e, f, g, h, i]);
  }

  lemma JoinEleven(a: string, b: string, c: string, d: string, e: string, f: string, g: string, h: string, i: string,
                   j: string, k: string)
    ensures Join([a, b, c, d, e, f, g, h, i, j, k]) == a + b + c + d + e + f + g + h + i + j + k
  {
    JoinNine(a, b, c, d, e, f, g, h, i);
    JoinLast([a, b, c, d, e, f, g, h, i], j, [a, b, c, d, e, f, g, h, i, j]);
    JoinLast([a, b, c, d, e, f, g, h, i, j], k, [a, b, c, d, e, f, g, h, i, j, k]);
  }

  lemma JoinOne(a: string)
    ensures Join([a]) == a
  {
    JoinLast([], a, [a]);
    assert "" + a == a;
  }

  // ---------------------------------------------------------------------------------
  // What is rendered is the letter
  // ---------------------------------------------------------------------------------

  lemma ThreeParts(parts: seq<string>)
    requires |parts| == 3
    ensures Join(parts) == parts[0] + parts[1] + parts[2]
  {
    JoinThree(parts[0], parts[1], parts[2]);
    assert parts == [parts[0], parts[1], parts[2]];
  }

  lemma NineParts(parts: seq<string>)
    requires |parts| == 9
    ensures Join(parts) ==
            parts[0] + parts[1] + parts[2] + parts[3] + parts[4] + parts[5] + parts[6] + parts[7] + parts[8]
  {
    JoinNine(parts[0], parts[1], parts[2], parts[3], parts[4], parts[5], parts[6], parts[7], parts[8]);
    assert parts ==
      [parts[0], parts[1], parts[2], parts[3], parts[4], parts[5], parts[6], parts[7], parts[8]];
  }

  lemma ElevenParts(parts: seq<string>)
    requires |parts| == 11
    ensures Join(parts) ==
            parts[0] + parts[1] + parts[2] + parts[3] + parts[4] + parts[5] + parts[6] + parts[7] + parts[8] +
            parts[9] + parts[10]
  {
    JoinEleven(parts[0], parts[1], parts[2], parts[3], parts[4], parts[5], parts[6], parts[7], parts[8], parts[9],
      parts[10]);
    assert parts == [parts[0], parts[1], parts[2], parts[3], parts[4], parts[5], parts[6], parts[7], parts[8],
                     parts[9], parts[10]];
  }

  lemma AllPaidText(context: Context)
    requires NameField in context && Fillable(ALL_PAID_BODY, context)
    ensures Join(Fill(ALL_PAID_BODY, context)) == AllPaidLetter(context[NameField])
  {
    ThreeParts(Fill(ALL_PAID_BODY, context));
    JoinOne("Hi ");
  }

  /** The fields of an invoice letter are those of `f`. */
  predicate HoldsInvoice(context: Context, name: string, f: InvoiceFact) {
    NameField in context && InvoiceIdField in context && AmountField in context && CurrencyField in context &&
    context[NameField] == name && context[InvoiceIdField] == f.invoiceId &&
    context[AmountField] == FormatAmount(f.amount) && context[CurrencyField] == f.currency
  }

  predicate HoldsSession(context: Context, name: string, f: SessionFact) {
    NameField in context && StationField in context && StatusField in context && KwhField in context &&
    CostField in context && context[NameField] == name && context[StationField] == f.station &&
    context[StatusField] == f.status.Word() && context[KwhField] == FormatAmount(f.kwh) &&
    context[CostField] == FormatAmount(f.cost)
  }

  lemma FailedText(context: Context, name: string, f: InvoiceFact)
    requires HoldsInvoice(context, name, f) && Fillable(FAILED_BODY, context)
    ensures Join(Fill(FAILED_BODY, context)) == FailedLetter(name, f.invoiceId, f.amount, f.currency)
  {
    NineParts(Fill(FAILED_BODY, context));
    JoinOne("Hi ");
    JoinOne(" for ");
    JoinOne(" ");
  }

  lemma PendingText(context: Context, name: string, f: InvoiceFact)
    requires HoldsInvoice(context, name, f) && Fillable(PENDING_BODY, context)
    ensures Join(Fill(PENDING_BODY, context)) == PendingLetter(name, f.invoiceId, f.amount, f.currency)
  {
    NineParts(Fill(PENDING_BODY, context));
    JoinOne("Hi ");
    JoinOne(" for ");
    JoinOne(" ");
  }

  lemma CompletedText(context: Context, name: string, f: SessionFact)
    requires HoldsSession(context, name, f) && Fillable(COMPLETED_BODY, context)
    ensures Join(Fill(COMPLETED_BODY, context)) == CompletedLetter(name, f.station, f.kwh, f.cost)
  {
    NineParts(Fill(COMPLETED_BODY, context));
    JoinOne("Hi ");
  }

  lemma EndedEarlyText(context: Context, name: string, f: SessionFact)
    requires HoldsSession(context, name, f) && Fillable(INTERRUPTED_BODY, context)
    ensures Join(Fill(INTERRUPTED_BODY, context)) ==
            EndedEarlyLetter(name, f.station, f.status.Word(), f.kwh, f.cost)
  {
    ElevenParts(Fill(INTERRUPTED_BODY, context));
    JoinOne("Hi ");
  }

  lemma InvoiceFields(status: InvoiceStatus, facts: FactSet, name: string, f: InvoiceFact)
    requires facts.userName == Some(name) && name != "" && First(facts.invoices, status) == Success(f)
    ensures ContextOf(InvoiceWith(status), facts).Success?
    ensures HoldsInvoice(ContextOf(InvoiceWith(status), facts).value, name, f)
  {
  }

  lemma SessionFields(facts: FactSet, name: string, f: SessionFact)
    requires facts.userName == Some(name) && name != "" && facts.sessions != [] && facts.sessions[0] == f
    ensures ContextOf(LatestSession, facts).Success?
    ensures HoldsSession(ContextOf(LatestSession, facts).value, name, f)
  {
  }

  lemma Filled(template: Template, facts: FactSet, context: Context)
    requires Render(template, facts).Success? && ContextOf(template.context, facts) == Success(context)
    ensures Fillable(template.body, context) &&
            Render(template, facts) == Success(Join(Fill(template.body, context)))
  {
  }

  /** The failed-payment letter is about the first failed invoice of the facts. */
  lemma FailedRendered(facts: FactSet, name: string, f: InvoiceFact)
    requires facts.userName == Some(name) && name != "" && First(facts.invoices, InvoiceFailed) == Success(f)
    ensures Render(SpecFor(BillingFailed), facts) ==
            Success(FailedLetter(name, f.invoiceId, f.amount, f.currency))
  {
    RendersExactlyWhen(BillingFailed, facts);
    InvoiceFields(InvoiceFailed, facts, name, f);
    var context := ContextOf(InvoiceWith(InvoiceFailed), facts).value;
    Filled(SpecFor(BillingFailed), facts, context);
    FailedText(context, name, f);
  }

  /** The pending letter is about the first pending invoice. */
  lemma PendingRendered(facts: FactSet, name: string, f: InvoiceFact)
    requires facts.userName == Some(name) && name != "" && First(facts.invoices, Pending) == Success(f)
    ensures Render(SpecFor(BillingPending), facts) ==
            Success(PendingLetter(name, f.invoiceId, f.amount, f.currency))
  {
    RendersExactlyWhen(BillingPending, facts);
    InvoiceFields(Pending, facts, name, f);
    var context := ContextOf(InvoiceWith(Pending), facts).value;
    Filled(SpecFor(BillingPending), facts, context);
    PendingText(context, name, f);
  }

  /** The completed letter is about the first session: what it delivered, and what was charged. */
  lemma CompletedRendered(facts: FactSet, name: string, f: SessionFact)
    requires facts.userName == Some(name) && name != "" && facts.sessions != [] && facts.sessions[0] == f
    ensures Render(SpecFor(SessionCompleted), facts) == Success(CompletedLetter(name, f.station, f.kwh, f.cost))
  {
    RendersExactlyWhen(SessionCompleted, facts);
    SessionFields(facts, name, f);
    var context := ContextOf(LatestSession, facts).value;
    Filled(SpecFor(SessionCompleted), facts, context);
    CompletedText(context, name, f);
  }

  /** The ended-early letter is about the first session too, and names its status. */
  lemma EndedEarlyRendered(facts: FactSet, name: string, f: SessionFact)
    requires facts.userName == Some(name) && name != "" && facts.sessions != [] && facts.sessions[0] == f
    ensures Render(SpecFor(SessionInterrupted), facts) ==
            Success(EndedEarlyLetter(name, f.station, f.status.Word(), f.kwh, f.cost))
  {
    RendersExactlyWhen(SessionInterrupted, facts);
    SessionFields(facts, name, f);
    var context := ContextOf(LatestSession, facts).value;
    Filled(SpecFor(SessionInterrupted), facts, context);
    EndedEarlyText(context, name, f);
  }

  /** The all-paid letter speaks of the account as a whole. */
  lemma AllPaidRendered(facts: FactSet, name: string)
    requires facts.userName == Some(name) && name != ""
    ensures Render(SpecFor(BillingAllPaid), facts) == Success(AllPaidLetter(name))
  {
    RendersExactlyWhen(BillingAllPaid, facts);
    var context := ContextOf(NameOnly, facts).value;
    Filled(SpecFor(BillingAllPaid), facts, context);
    AllPaidText(context);
  }
}

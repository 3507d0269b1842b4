/** The five reply bodies, the facts each one interpolates, and rendering. */
module Templates {
  import opened Wrappers
  import opened Decimals
  import opened Domain
  import opened FactSets
  import opened Joints

  datatype Field =
    | NameField | InvoiceIdField | AmountField | CurrencyField | StationField | StatusField | KwhField | CostField

  /** A stretch of a body: fixed prose, given in short lines, or a field. */
  datatype Part = Prose(lines: seq<string>) | Slot(field: Field)

  /** How a template pulls its fields from the facts. */
  datatype Selector = NameOnly | InvoiceWith(status: InvoiceStatus) | LatestSession

  datatype Template = Template(body: seq<Part>, context: Selector, safe: set<string>)

  // The prose, in lines each of which ends in a blank.

  const GREETING: seq<string> := ["Hi "]

  const ALL_PAID_TEXT: seq<string> := [
    ",\n\nThanks for getting ", "in touch. I've checked ", "your account and every ", "invoice on it is ",
    "paid, ", "with nothing ", "outstanding.\n\n", "If something still ", "looks wrong, reply to ",
    "this message and ", "we'll take another ", "look.\n\nBest regards,\n", "Support\n"]

  const INVOICE_OPENING: seq<string> := [",\n\nThanks for getting ", "in touch. Invoice "]
  const FOR: seq<string> := [" for "]
  const SPACE: seq<string> := [" "]

  const FAILED_TEXT: seq<string> := [
    " has a ", "failed ", "payment, so that ", "amount is still ", "outstanding.\n\n", "You can retry it from ",
    "the billing section ", "of the app. If it ", "keeps failing, reply ", "here and we'll ", "help ",
    "sort it out.\n\n", "Best regards,\n", "Support\n"]

  const PENDING_TEXT: seq<string> := [
    " is still ", "pending ", "and has not been ", "collected yet.\n\n", "Pending ", "invoices are ",
    "normally settled ", "automatically ", "within ", "3 ", "business days. ", "If it is still ",
    "pending ", "after that, reply ", "here and we'll take ", "a look.\n\n", "Best regards,\n", "Support\n"]

  const SESSION_OPENING: seq<string> := [
    ",\n\nThanks for getting ", "in touch. Your most ", "recent charging ", "session at "]

  const COMPLETED_TEXT: seq<string> := [" ", "completed ", "normally: it ", "delivered "]
  const CHARGED_AT: seq<string> := [" kWh, ", "charged at "]
  const COMPLETED_CLOSE: seq<string> := [
    ".\n\n", "If your app shows ", "something ", "different, ", "reply here with the ", "details and ",
    "we'll investigate.\n\n", "Best regards,\n", "Support\n"]

  const ENDED_EARLY: seq<string> := [" ended early with a ", "status of "]
  const AFTER_DELIVERING: seq<string> := [", after ", "delivering "]
  const YOU_WERE_CHARGED: seq<string> := [" kWh.\n\n", "You were charged "]
  const INTERRUPTED_CLOSE: seq<string> := [
    " for the energy ", "actually delivered. ", "If that ", "does ", "not look right, ", "reply here ",
    "and we'll ", "review the session ", "and correct any ", "overcharge.\n\n", "Best regards,\n", "Support\n"]

  // The bodies.

  const ALL_PAID_BODY: seq<Part> := [Prose(GREETING), Slot(NameField), Prose(ALL_PAID_TEXT)]

  const FAILED_BODY: seq<Part> := [
    Prose(GREETING), Slot(NameField), Prose(INVOICE_OPENING), Slot(InvoiceIdField),
    Prose(FOR), Slot(AmountField), Prose(SPACE), Slot(CurrencyField), Prose(FAILED_TEXT)]

  const PENDING_BODY: seq<Part> := [
    Prose(GREETING), Slot(NameField), Prose(INVOICE_OPENING), Slot(InvoiceIdField),
    Prose(FOR), Slot(AmountField), Prose(SPACE), Slot(CurrencyField), Prose(PENDING_TEXT)]

  const COMPLETED_BODY: seq<Part> := [
    Prose(GREETING), Slot(NameField), Prose(SESSION_OPENING), Slot(StationField), Prose(COMPLETED_TEXT),
    Slot(KwhField), Prose(CHARGED_AT), Slot(CostField), Prose(COMPLETED_CLOSE)]

  const INTERRUPTED_BODY: seq<Part> := [
    Prose(GREETING), Slot(NameField), Prose(SESSION_OPENING), Slot(StationField), Prose(ENDED_EARLY),
    Slot(StatusField), Prose(AFTER_DELIVERING), Slot(KwhField), Prose(YOU_WERE_CHARGED), Slot(CostField),
    Prose(INTERRUPTED_CLOSE)]

  function SpecFor(name: ReplyTemplate): Template {
    match name
    case BillingAllPaid => Template(ALL_PAID_BODY, NameOnly, {})
    case BillingFailed => Template(FAILED_BODY, InvoiceWith(InvoiceFailed), {})
    case BillingPending => Template(PENDING_BODY, InvoiceWith(Pending), {"3"})
    case SessionCompleted => Template(COMPLETED_BODY, LatestSession, {})
    case SessionInterrupted => Template(INTERRUPTED_BODY, LatestSession, {})
  }

  // ---------------------------------------------------------------------------------
  // Field selection
  // ---------------------------------------------------------------------------------

  type Context = map<Field, string>

  function Name(facts: FactSet): (r: Result<string, Exn>)
    ensures r.Success? <==> facts.userName.Some? && facts.userName.value != ""
    ensures r.Success? ==> facts.userName == Some(r.value)
  {
    if facts.userName == None || facts.userName.value == ""
    then Failure(ValueError("a reply template needs the user's name, but the FactSet has none"))
    else Success(facts.userName.value)
  }

  /** The first invoice of a status. */
  function First(invoices: seq<InvoiceFact>, status: InvoiceStatus): (r: Result<InvoiceFact, Exn>)
    ensures r.Success? ==> exists k :: 0 <= k < |invoices| && invoices[k] == r.value && r.value.status == status &&
                                       forall j :: 0 <= j < k ==> invoices[j].status != status
    ensures r.Failure? ==> forall f :: f in invoices ==> f.status != status
  {
    if invoices == [] then
      Failure(ValueError("a reply template needs an invoice with status " + status.Word() +
        ", but the FactSet has none"))
    else if invoices[0].status == status then Success(invoices[0])
    else
      var r := First(invoices[1..], status);
      assert r.Success? ==> exists k :: 0 <= k < |invoices| && invoices[k] == r.value && r.value.status == status &&
                                        forall j :: 0 <= j < k ==> invoices[j].status != status by {
        if r.Success? {
          var k :| 0 <= k < |invoices[1..]| && invoices[1..][k] == r.value &&
                   forall j :: 0 <= j < k ==> invoices[1..][j].status != status;
          assert invoices[k + 1] == r.value;
          assert forall j :: 0 < j < k + 1 ==> invoices[j] == invoices[1..][j - 1];
        }
      }
      r
  }

  function ContextOf(selector: Selector, facts: FactSet): Result<Context, Exn> {
    match selector
    case NameOnly =>
      var name :- Name(facts);
      Success(map[NameField := name])
    case InvoiceWith(status) =>
      var invoice :- First(facts.invoices, status);
      var name :- Name(facts);
      Success(map[NameField := name, InvoiceIdField := invoice.invoiceId,
                  AmountField := FormatAmount(invoice.amount), CurrencyField := invoice.currency])
    case LatestSession =>
      if facts.sessions == [] then
        Failure(ValueError("a reply template needs a charging session, but the FactSet has none"))
      else
        var session := facts.sessions[0];
        var name :- Name(facts);
        Success(map[NameField := name, StationField := session.station, StatusField := session.status.Word(),
                    KwhField := FormatAmount(session.kwh), CostField := FormatAmount(session.cost)])
  }

  predicate Fillable(body: seq<Part>, context: Context) {
    forall p | p in body :: p.Slot? ==> p.field in context
  }

  function PartText(part: Part, context: Context): string
    requires part.Slot? ==> part.field in context
  {
    match part
    case Prose(lines) => Join(lines)
    case Slot(field) => context[field]
  }

  /** The texts a body is filled with, part by part. */
  function Fill(body: seq<Part>, context: Context): (r: seq<string>)
    requires Fillable(body, context)
    ensures |r| == |body|
    ensures forall k :: 0 <= k < |body| ==> r[k] == PartText(body[k], context)
  {
    seq(|body|, i requires 0 <= i < |body| => PartText(body[i], context))
  }

  function Render(template: Template, facts: FactSet): Result<string, Exn> {
    var context :- ContextOf(template.context, facts);
    if Fillable(template.body, context) then Success(Join(Fill(template.body, context)))
    else Failure(Raised("KeyError", "", ""))
  }

  // ---------------------------------------------------------------------------------

  /** The fields a selector provides. */
  function FieldsOf(selector: Selector): set<Field> {
    match selector
    case NameOnly => {NameField}
    case InvoiceWith(_) => {NameField, InvoiceIdField, AmountField, CurrencyField}
    case LatestSession => {NameField, StationField, StatusField, KwhField, CostField}
  }

  lemma ContextExact(selector: Selector, facts: FactSet)
    ensures ContextOf(selector, facts).Success? <==>
            Name(facts).Success? && (selector.InvoiceWith? ==> First(facts.invoices, selector.status).Success?) &&
            (selector.LatestSession? ==> facts.sessions != [])
    ensures ContextOf(selector, facts).Success? ==> ContextOf(selector, facts).value.Keys == FieldsOf(selector)
  {
  }

  predicate Asks(body: seq<Part>, fields: set<Field>) {
    forall p | p in body :: p.Slot? ==> p.field in fields
  }

  lemma InvoiceBodiesAsk(fields: set<Field>)
    requires fields == {NameField, InvoiceIdField, AmountField, CurrencyField}
    ensures Asks(FAILED_BODY, fields) && Asks(PENDING_BODY, fields)
  {
  }

  lemma SessionBodiesAsk(fields: set<Field>)
    requires fields == {NameField, StationField, StatusField, KwhField, CostField}
    ensures Asks(COMPLETED_BODY, fields) && Asks(INTERRUPTED_BODY, fields)
  {
  }

  lemma BodiesAsk(name: ReplyTemplate)
    ensures Asks(SpecFor(name).body, FieldsOf(SpecFor(name).context))
  {
    InvoiceBodiesAsk({NameField, InvoiceIdField, AmountField, CurrencyField});
    SessionBodiesAsk({NameField, StationField, StatusField, KwhField, CostField});
  }

  lemma RendersWithContext(template: Template, facts: FactSet)
    requires Asks(template.body, FieldsOf(template.context))
    ensures Render(template, facts).Success? <==> ContextOf(template.context, facts).Success?
  {
    ContextExact(template.context, facts);
  }

  /** The facts fill a template exactly when they have a non-empty name and the record the
      template speaks about; a shipped body never asks for a field its selector lacks. */
  lemma RendersExactlyWhen(name: ReplyTemplate, facts: FactSet)
    ensures Render(SpecFor(name), facts).Success? <==>
            facts.userName.Some? && facts.userName.value != "" &&
            match name
            case BillingAllPaid => true
            case BillingFailed => exists f :: f in facts.invoices && f.status == InvoiceFailed
            case BillingPending => exists f :: f in facts.invoices && f.status == Pending
            case SessionCompleted => facts.sessions != []
            case SessionInterrupted => facts.sessions != []
  {
    BodiesAsk(name);
    RendersWithContext(SpecFor(name), facts);
    ContextExact(SpecFor(name).context, facts);
  }
}

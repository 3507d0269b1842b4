/** The shared vocabulary: enumerations, fixture records, decisions and failures. */
module Domain {

  // Enumerations ----------------------------------------------------------------------

  datatype Intent = BillingQuestion | ChargingSessionProblem | UnknownIntent

  datatype TicketStatus = Processing | Replied | HandedOff

  datatype ReplyTemplate = BillingAllPaid | BillingFailed | BillingPending | SessionCompleted | SessionInterrupted

  datatype SessionStatus = Completed | Interrupted | SessionFailed {
    function Word(): string {
      match this
      case Completed => "completed"
      case Interrupted => "interrupted"
      case SessionFailed => "failed"
    }
  }

  datatype InvoiceStatus = Paid | Pending | InvoiceFailed {
    function Word(): string {
      match this
      case Paid => "paid"
      case Pending => "pending"
      case InvoiceFailed => "failed"
    }
  }

  datatype HandoffReason =
    | USER_NOT_FOUND | DATA_NOT_FOUND | UNSUPPORTED_INTENT
    | TOOL_ERROR | ITERATION_CAP_EXCEEDED | UNGROUNDED_REPLY

  datatype LiteralClass = NumberClass | IdentifierClass | StatusClass

  // The text each enumeration member is written as

  function IntentName(i: Intent): string {
    match i
    case BillingQuestion => "billing_question"
    case ChargingSessionProblem => "charging_session_problem"
    case UnknownIntent => "unknown"
  }

  function StatusName(s: TicketStatus): string {
    match s
    case Processing => "processing"
    case Replied => "replied"
    case HandedOff => "handed_off"
  }

  function ReasonName(r: HandoffReason): string {
    match r
    case USER_NOT_FOUND => "USER_NOT_FOUND"
    case DATA_NOT_FOUND => "DATA_NOT_FOUND"
    case UNSUPPORTED_INTENT => "UNSUPPORTED_INTENT"
    case TOOL_ERROR => "TOOL_ERROR"
    case ITERATION_CAP_EXCEEDED => "ITERATION_CAP_EXCEEDED"
    case UNGROUNDED_REPLY => "UNGROUNDED_REPLY"
  }

  function ClassName(c: LiteralClass): string {
    match c
    case NumberClass => "number"
    case IdentifierClass => "identifier"
    case StatusClass => "status"
  }

  // What the tools return -------------------------------------------------------------

  /** A fixture record. Times are whole microseconds; decimals are exact. */
  datatype Record =
    | User(userId: string, name: string, language: string, plan: string)
    | Session(sessionId: string, station: string, kwh: real, cost: real, sessionStatus: SessionStatus, startedAt: int)
    | Invoice(invoiceId: string, amount: real, currency: string, invoiceStatus: InvoiceStatus, issuedAt: int)

  predicate HasStatus(r: Record, word: string) {
    (r.Invoice? && r.invoiceStatus.Word() == word) || (r.Session? && r.sessionStatus.Word() == word)
  }

  datatype ToolResult = ToolResult(tool: string, records: seq<Record>)

  /** Values that cross a JSON boundary; a number is whole or has a fraction part. */
  datatype Json =
    | Null | Bool(b: bool) | Num(n: int) | Frac(x: real)
    | Str(s: string) | Arr(items: seq<Json>) | Obj(fields: map<string, Json>)

  type Fields = map<string, Json>

  /** What a customer sends. */
  datatype Request = Request(userId: string, subject: string, body: string)

  // What the model decides ------------------------------------------------------------

  datatype Classification = Classification(intent: Intent, keywords: seq<string>)

  datatype Step =
    | ToolCall(tool: string, args: Fields)
    | Reply(template: ReplyTemplate)
    | Handoff(reason: HandoffReason)

  datatype Observation = Observation(tool: string, args: Fields, result: ToolResult)

  // Failures --------------------------------------------------------------------------

  /** A raised exception: the two typed tool failures, and everything else. `shown` is its
      `repr`. */
  datatype Exn =
    | UserNotFound(message: string)
    | NoDataAvailable(message: string)
    | Raised(kind: string, message: string, shown: string)
  {
    function TypeName(): string {
      match this
      case UserNotFound(_) => "UserNotFound"
      case NoDataAvailable(_) => "NoDataAvailable"
      case Raised(kind, _, _) => kind
    }
  }

  function ToolExecutionError(message: string): Exn { Raised("ToolExecutionError", message, message) }

  function ValueError(message: string): Exn { Raised("ValueError", message, message) }

  // Trace payloads --------------------------------------------------------------------

  datatype Violation = Violation(literal: string, literalClass: LiteralClass, reason: string)
}

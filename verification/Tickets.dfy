/** Tickets, the rule that ties status, reply and reason together, and its two enforcement
    points. */
module Tickets {
  import opened Wrappers
  import opened Domain
  import opened Trace
  import opened Codec

  /** Where a ticket stands. */
  datatype Resolution = Resolution(status: TicketStatus, reply: Option<string>, reason: Option<HandoffReason>) {
    /** The ticket's own validator: an empty reply is no reply. */
    predicate Coherent() {
      match status
      case Processing => reply.None? && reason.None?
      case Replied => reply.Some? && reply.value != "" && reason.None?
      case HandedOff => reply.None? && reason.Some?
    }

    /** The CHECK of the ticket table: a reply is there or it is NULL. */
    predicate Checked() {
      match status
      case Processing => reply.None? && reason.None?
      case Replied => reply.Some? && reason.None?
      case HandedOff => reply.None? && reason.Some?
    }
  }

  const OPEN := Resolution(Processing, None, None)

  /** The states a ticket can be in: open, replied to with some text, handed off for some reason. */
  predicate Settled(r: Resolution, text: string, reason: HandoffReason) {
    r == Resolution(Processing, None, None) || (text != "" && r == Resolution(Replied, Some(text), None)) ||
    r == Resolution(HandedOff, None, Some(reason))
  }

  /** The validator allows exactly these. */
  lemma CoherentExactly(r: Resolution)
    ensures r.Coherent() <==> exists text, reason :: Settled(r, text, reason)
  {
    if r.Coherent() {
      var text := if r.reply.Some? then r.reply.value else "";
      assert Settled(r, text, if r.reason.Some? then r.reason.value else TOOL_ERROR);
    }
  }

  /** The two enforcement points differ in one case: an empty reply. */
  lemma ChecksDiffer(r: Resolution)
    ensures r.Coherent() ==> r.Checked()
    ensures r.Checked() && !r.Coherent() <==> r == Resolution(Replied, Some(""), None)
  {
  }

  predicate ValidRequest(r: Request) {
    r.userId != "" && 1 <= |r.subject| <= 200 && 1 <= |r.body| <= 5000
  }

  /** The bounds of the customer's words. */
  lemma RequestEdges(userId: string, subject: string, body: string)
    ensures !ValidRequest(Request("", subject, body)) && !ValidRequest(Request(userId, "", body))
    ensures !ValidRequest(Request(userId, subject, ""))
    ensures |subject| == 201 || |body| == 5001 ==> !ValidRequest(Request(userId, subject, body))
    ensures userId != "" && |subject| == 200 && |body| == 5000 ==> ValidRequest(Request(userId, subject, body))
    ensures userId != "" && |subject| == 1 && |body| == 1 ==> ValidRequest(Request(userId, subject, body))
  {
  }

  datatype Ticket = Ticket(id: string, request: Request, resolution: Resolution, createdAt: int, updatedAt: int,
                           trace: seq<TraceStep>)
  {
    /** What constructing a ticket checks. */
    predicate Valid() {
      ValidRequest(request) && resolution.Coherent() && ValidTrace(trace)
    }
  }

  predicate ValidTrace(trace: seq<TraceStep>) {
    forall s | s in trace :: ValidStep(s)
  }

  /** What the two stores raise: the two failures of the protocol, the model's validation
      error, and the database's integrity error. */
  datatype StoreError = AlreadyExists(id: string) | NotFound(id: string) | Invalid | Integrity

  function Number(s: TraceStep): int { s.number }

  /** No two steps have the same number. */
  predicate Distinct(trace: seq<TraceStep>) {
    forall i, j | 0 <= i < j < |trace| :: trace[i].number != trace[j].number
  }
}

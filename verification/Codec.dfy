/** Trace steps as table rows: number, time and type have columns of their own, the rest a JSON
    payload, and back through the type. */
module Codec {
  import opened Wrappers
  import opened Domain
  import opened Trace

  /** One row of the step table, beside the ticket it belongs to. */
  datatype StepRow = StepRow(number: int, ts: int, kind: string, payload: Fields)

  const PROMOTED: set<string> := {"seq", "ts", "type"}

  function DecisionName(d: Decision): string {
    match d
    case CallTool => "tool_call"
    case DoReply => "reply"
    case GiveUp => "handoff"
  }

  // Reading enumerations back -------------------------------------------------------------

  function ParseIntent(s: string): Option<Intent> {
    if s == IntentName(BillingQuestion) then Some(BillingQuestion)
    else if s == IntentName(ChargingSessionProblem) then Some(ChargingSessionProblem)
    else if s == IntentName(UnknownIntent) then Some(UnknownIntent) else None
  }

  function ParseDecision(s: string): Option<Decision> {
    if s == DecisionName(CallTool) then Some(CallTool)
    else if s == DecisionName(DoReply) then Some(DoReply)
    else if s == DecisionName(GiveUp) then Some(GiveUp) else None
  }

  function ParseStatus(s: string): Option<TicketStatus> {
    if s == StatusName(Processing) then Some(Processing)
    else if s == StatusName(Replied) then Some(Replied)
    else if s == StatusName(HandedOff) then Some(HandedOff) else None
  }

  function ParseReason(s: string): Option<HandoffReason> {
    if s == ReasonName(USER_NOT_FOUND) then Some(USER_NOT_FOUND)
    else if s == ReasonName(DATA_NOT_FOUND) then Some(DATA_NOT_FOUND)
    else if s == ReasonName(UNSUPPORTED_INTENT) then Some(UNSUPPORTED_INTENT)
    else if s == ReasonName(TOOL_ERROR) then Some(TOOL_ERROR)
    else if s == ReasonName(ITERATION_CAP_EXCEEDED) then Some(ITERATION_CAP_EXCEEDED)
    else if s == ReasonName(UNGROUNDED_REPLY) then Some(UNGROUNDED_REPLY) else None
  }

  function ParseClass(s: string): Option<LiteralClass> {
    if s == ClassName(NumberClass) then Some(NumberClass)
    else if s == ClassName(IdentifierClass) then Some(IdentifierClass)
    else if s == ClassName(StatusClass) then Some(StatusClass) else None
  }

  lemma IntentParses(i: Intent)
    ensures ParseIntent(IntentName(i)) == Some(i)
  {
  }

  lemma DecisionParses(d: Decision)
    ensures ParseDecision(DecisionName(d)) == Some(d)
  {
  }

  lemma StatusParses(s: TicketStatus)
    ensures ParseStatus(StatusName(s)) == Some(s)
  {
  }

  lemma ReasonParses(r: HandoffReason)
    ensures ParseReason(ReasonName(r)) == Some(r)
  {
  }

  lemma ClassParses(c: LiteralClass)
    ensures ParseClass(ClassName(c)) == Some(c)
  {
  }

  // ---------------------------------------------------------------------------------
  // Writing
  // ---------------------------------------------------------------------------------

  function OrNull(s: Option<string>): Json { if s.Some? then Str(s.value) else Null }

  function StringItems(words: seq<string>): (r: seq<Json>)
    ensures |r| == |words|
  {
    if words == [] then [] else [Str(words[0])] + StringItems(words[1..])
  }

  /** Stored under its alias: the key is `class`. */
  function ViolationJson(v: Violation): Json {
    Obj(map["literal" := Str(v.literal), "class" := Str(ClassName(v.literalClass)), "reason" := Str(v.reason)])
  }

  function ViolationItems(violations: seq<Violation>): seq<Json> {
    if violations == [] then [] else [ViolationJson(violations[0])] + ViolationItems(violations[1..])
  }

  function ErrorJson(error: Option<ToolError>): Json {
    if error.None? then Null else Obj(map["type" := Str(error.value.kind), "message" := Str(error.value.message)])
  }

  function Kind(e: Event): string {
    match e
    case IntentClassified(_, _) => "intent_classified"
    case LLMDecision(_, _, _) => "llm_decision"
    case ToolCalled(_, _) => "tool_call"
    case ToolReturned(_, _, _, _) => "tool_result"
    case GroundingChecked(_, _, _) => "grounding_check"
    case FinalDecision(_, _, _) => "final_decision"
  }

  function Payload(e: Event): Fields {
    match e
    case IntentClassified(intent, keywords) =>
      map["intent" := Str(IntentName(intent)), "matched_keywords" := Arr(StringItems(keywords))]
    case LLMDecision(iteration, decision, tool) =>
      map["iteration" := Num(iteration), "decision" := Str(DecisionName(decision)), "tool" := OrNull(tool)]
    case ToolCalled(name, args) =>
      map["tool" := Str(name), "args" := Obj(args)]
    case ToolReturned(name, ok, summary, error) =>
      map["tool" := Str(name), "ok" := Bool(ok), "summary" := if summary.Some? then Obj(summary.value) else Null,
          "error" := ErrorJson(error)]
    case GroundingChecked(passed, n, violations) =>
      map["passed" := Bool(passed), "literals_checked" := Num(n), "violations" := Arr(ViolationItems(violations))]
    case FinalDecision(outcome, reason, detail) =>
      map["outcome" := Str(StatusName(outcome)),
        "reason" := OrNull(if reason.Some? then Some(ReasonName(reason.value)) else None),
          "detail" := OrNull(detail)]
  }

  function ToRow(step: TraceStep): StepRow {
    StepRow(step.number, step.ts, Kind(step.event), Payload(step.event))
  }

  // ---------------------------------------------------------------------------------
  // Reading back: unknown fields are refused, missing optional ones take their default
  // ---------------------------------------------------------------------------------

  function Text(p: Fields, key: string): Option<string> {
    if key in p && p[key].Str? then Some(p[key].s) else None
  }

  function OptionalText(p: Fields, key: string): Option<Option<string>> {
    if key !in p || p[key].Null? then Some(None)
    else if p[key].Str? then Some(Some(p[key].s)) else None
  }

  function ParseStrings(items: seq<Json>): Option<seq<string>> {
    if items == [] then Some([])
    else if !items[0].Str? then None
    else
      var rest := ParseStrings(items[1..]);
      if rest.None? then None else Some([items[0].s] + rest.value)
  }

  function ParseViolation(j: Json): Option<Violation> {
    if !j.Obj? || j.fields.Keys != {"literal", "class", "reason"} then None
    else
      var literal, name, reason := Text(j.fields, "literal"), Text(j.fields, "class"), Text(j.fields, "reason");
      if literal.None? || name.None? || reason.None? || ParseClass(name.value).None? then None
      else Some(Violation(literal.value, ParseClass(name.value).value, reason.value))
  }

  function ParseViolations(items: seq<Json>): Option<seq<Violation>> {
    if items == [] then Some([])
    else
      var first, rest := ParseViolation(items[0]), ParseViolations(items[1..]);
      if first.None? || rest.None? then None else Some([first.value] + rest.value)
  }

  function ParseIntentStep(p: Fields): Option<Event> {
    var name := Text(p, "intent");
    if name.None? || ParseIntent(name.value).None? || "matched_keywords" !in p || !p["matched_keywords"].Arr? then None
    else
      var keywords := ParseStrings(p["matched_keywords"].items);
      if keywords.None? then None else Some(IntentClassified(ParseIntent(name.value).value, keywords.value))
  }

  function ParseDecisionStep(p: Fields): Option<Event> {
    var name, tool := Text(p, "decision"), OptionalText(p, "tool");
    if name.None? || ParseDecision(name.value).None? || tool.None? || "iteration" !in p ||
      !p["iteration"].Num? then None
    else Some(LLMDecision(p["iteration"].n, ParseDecision(name.value).value, tool.value))
  }

  function ParseCallStep(p: Fields): Option<Event> {
    var name := Text(p, "tool");
    if name.None? || "args" !in p || !p["args"].Obj? then None else Some(ToolCalled(name.value, p["args"].fields))
  }

  function ParseError(j: Json): Option<ToolError> {
    if !j.Obj? || j.fields.Keys != {"type", "message"} then None
    else
      var kind, message := Text(j.fields, "type"), Text(j.fields, "message");
      if kind.None? || message.None? then None else Some(ToolError(kind.value, message.value))
  }

  function OptionalError(p: Fields): Option<Option<ToolError>> {
    if "error" !in p || p["error"].Null? then Some(None)
    else
      var error := ParseError(p["error"]);
      if error.None? then None else Some(error)
  }

  function OptionalSummary(p: Fields): Option<Option<Fields>> {
    if "summary" !in p || p["summary"].Null? then Some(None)
    else if p["summary"].Obj? then Some(Some(p["summary"].fields)) else None
  }

  function ParseResultStep(p: Fields): Option<Event> {
    var name, summary, error := Text(p, "tool"), OptionalSummary(p), OptionalError(p);
    if name.None? || "ok" !in p || !p["ok"].Bool? || summary.None? || error.None? then None
    else Some(ToolReturned(name.value, p["ok"].b, summary.value, error.value))
  }

  function ParseCheckStep(p: Fields): Option<Event> {
    var violations :=
      if "violations" !in p then Some([])
      else if p["violations"].Arr? then ParseViolations(p["violations"].items) else None;
    if "passed" !in p || !p["passed"].Bool? || "literals_checked" !in p || !p["literals_checked"].Num? ||
      violations.None? then None
    else Some(GroundingChecked(p["passed"].b, p["literals_checked"].n, violations.value))
  }

  function ParseFinalStep(p: Fields): Option<Event> {
    var outcome, reason, detail := Text(p, "outcome"), OptionalText(p, "reason"), OptionalText(p, "detail");
    if outcome.None? || ParseStatus(outcome.value).None? || reason.None? || detail.None? then None
    else if reason.value.None? then Some(FinalDecision(ParseStatus(outcome.value).value, None, detail.value))
    else if ParseReason(reason.value.value).None? then None
    else Some(FinalDecision(ParseStatus(outcome.value).value, ParseReason(reason.value.value), detail.value))
  }

  /** The fields of a step type, beside the promoted ones. */
  function FieldNames(kind: string): set<string> {
    if kind == "intent_classified" then {"intent", "matched_keywords"}
    else if kind == "llm_decision" then {"iteration", "decision", "tool"}
    else if kind == "tool_call" then {"tool", "args"}
    else if kind == "tool_result" then {"tool", "ok", "summary", "error"}
    else if kind == "grounding_check" then {"passed", "literals_checked", "violations"}
    else {"outcome", "reason", "detail"}
  }

  /** The discriminated union, before the validators. */
  function ParseEvent(kind: string, p: Fields): Option<Event> {
    if !(p.Keys <= FieldNames(kind)) then None
    else if kind == "intent_classified" then ParseIntentStep(p)
    else if kind == "llm_decision" then ParseDecisionStep(p)
    else if kind == "tool_call" then ParseCallStep(p)
    else if kind == "tool_result" then ParseResultStep(p)
    else if kind == "grounding_check" then ParseCheckStep(p)
    else if kind == "final_decision" then ParseFinalStep(p)
    else None
  }

  predicate ValidStep(step: TraceStep) { step.number >= 1 && step.event.Coherent() }

  /** The columns override whatever the payload says under their names; then the validators. */
  function FromRow(row: StepRow): Option<TraceStep> {
    var event := ParseEvent(row.kind, row.payload - PROMOTED);
    if event.None? then None
    else
      var step := TraceStep(row.number, row.ts, event.value);
      if ValidStep(step) then Some(step) else None
  }

  // ---------------------------------------------------------------------------------
  // Round trip
  // ---------------------------------------------------------------------------------

  lemma {:induction false} StringsParse(words: seq<string>)
    ensures ParseStrings(StringItems(words)) == Some(words)
  {
    if words == [] {
    } else {
      StringsParse(words[1..]);
      assert words == [words[0]] + words[1..];
    }
  }

  lemma ViolationParses(v: Violation)
    ensures ParseViolation(ViolationJson(v)) == Some(v)
  {
    ClassParses(v.literalClass);
  }

  lemma {:induction false} ViolationsParse(violations: seq<Violation>)
    ensures ParseViolations(ViolationItems(violations)) == Some(violations)
  {
    if violations == [] {
    } else {
      ViolationParses(violations[0]);
      ViolationsParse(violations[1..]);
      assert violations == [violations[0]] + violations[1..];
    }
  }

  /** A payload has the fields of its type and none of the promoted columns. */
  lemma PayloadFields(e: Event)
    ensures Payload(e).Keys == FieldNames(Kind(e)) && Payload(e) - PROMOTED == Payload(e)
  {
  }

  lemma IntentStepParses(e: Event)
    requires e.IntentClassified?
    ensures ParseIntentStep(Payload(e)) == Some(e)
  {
    IntentParses(e.intent);
    StringsParse(e.keywords);
  }

  lemma DecisionStepParses(e: Event)
    requires e.LLMDecision?
    ensures ParseDecisionStep(Payload(e)) == Some(e)
  {
    DecisionParses(e.decision);
  }

  lemma ResultStepParses(e: Event)
    requires e.ToolReturned?
    ensures ParseResultStep(Payload(e)) == Some(e)
  {
    if e.error.Some? {
      assert ParseError(ErrorJson(e.error)) == e.error;
    }
  }

  lemma CheckStepParses(e: Event)
    requires e.GroundingChecked?
    ensures ParseCheckStep(Payload(e)) == Some(e)
  {
    ViolationsParse(e.violations);
  }

  lemma FinalStepParses(e: Event)
    requires e.FinalDecision?
    ensures ParseFinalStep(Payload(e)) == Some(e)
  {
    StatusParses(e.outcome);
    if e.reason.Some? { ReasonParses(e.reason.value); }
  }

  /** Every event is read back from its type and payload. */
  lemma EventParses(e: Event)
    ensures ParseEvent(Kind(e), Payload(e)) == Some(e)
  {
    PayloadFields(e);
    match e
    case IntentClassified(_, _) => IntentStepParses(e);
    case LLMDecision(_, _, _) => DecisionStepParses(e);
    case ToolCalled(_, _) =>
    case ToolReturned(_, _, _, _) => ResultStepParses(e);
    case GroundingChecked(_, _, _) => CheckStepParses(e);
    case FinalDecision(_, _, _) => FinalStepParses(e);
  }

  /** A row reads back as the step it was made from, exactly when that step was valid: a row
      whose step could not have been constructed is refused. */
  lemma RowRoundTrip(step: TraceStep)
    ensures FromRow(ToRow(step)) == if ValidStep(step) then Some(step) else None
  {
    EventParses(step.event);
    PayloadFields(step.event);
  }

  /** Distinct steps never share a row. */
  lemma RowsAreDistinct(a: TraceStep, b: TraceStep)
    requires ToRow(a) == ToRow(b)
    ensures a == b
  {
    EventParses(a.event);
    EventParses(b.event);
  }

  // ---------------------------------------------------------------------------------
  // What the rows hold
  // ---------------------------------------------------------------------------------

  /** The row of a step of each other type, field by field. */
  lemma RowsStored(n: int, ts: int, text: string, args: Fields, kind: string, passed: bool, reason: HandoffReason)
    ensures ToRow(TraceStep(n, ts, IntentClassified(UnknownIntent, [text]))) ==
            StepRow(n, ts, "intent_classified", map["intent" := Str("unknown"), "matched_keywords" := Arr([Str(text)])])
    ensures ToRow(TraceStep(n, ts, LLMDecision(n, GiveUp, None))) ==
            StepRow(n, ts, "llm_decision", map["iteration" := Num(n), "decision" := Str("handoff"), "tool" := Null])
    ensures ToRow(TraceStep(n, ts, ToolCalled(text, args))) ==
            StepRow(n, ts, "tool_call", map["tool" := Str(text), "args" := Obj(args)])
    ensures ToRow(TraceStep(n, ts, ToolReturned(text, true, Some(args), None))) ==
            StepRow(n, ts, "tool_result",
              map["tool" := Str(text), "ok" := Bool(true), "summary" := Obj(args), "error" := Null])
    ensures ToRow(TraceStep(n, ts, ToolReturned(text, false, None, Some(ToolError(kind, text))))) ==
            StepRow(n, ts, "tool_result",
              map["tool" := Str(text), "ok" := Bool(false), "summary" := Null,
                  "error" := Obj(map["type" := Str(kind), "message" := Str(text)])])
    ensures ToRow(TraceStep(n, ts, GroundingChecked(passed, n, []))) ==
            StepRow(n, ts, "grounding_check",
              map["passed" := Bool(passed), "literals_checked" := Num(n), "violations" := Arr([])])
    ensures ToRow(TraceStep(n, ts, FinalDecision(HandedOff, Some(reason), Some(text)))) ==
            StepRow(n, ts, "final_decision",
              map["outcome" := Str("handed_off"), "reason" := Str(ReasonName(reason)), "detail" := Str(text)])
  {
    assert [text][1..] == [];
    assert StringItems([text]) == [Str(text)];
  }

  lemma IntentsStored(keywords: seq<string>)
    ensures Payload(IntentClassified(BillingQuestion, keywords))["intent"] == Str("billing_question")
    ensures Payload(IntentClassified(ChargingSessionProblem, keywords))["intent"] == Str("charging_session_problem")
    ensures Payload(IntentClassified(UnknownIntent, keywords))["intent"] == Str("unknown")
  {
  }

  lemma DecisionsStored(i: int, tool: string)
    ensures Payload(LLMDecision(i, CallTool, Some(tool))) ==
            map["iteration" := Num(i), "decision" := Str("tool_call"), "tool" := Str(tool)]
    ensures Payload(LLMDecision(i, DoReply, None)) ==
            map["iteration" := Num(i), "decision" := Str("reply"), "tool" := Null]
    ensures Payload(LLMDecision(i, GiveUp, None)) ==
            map["iteration" := Num(i), "decision" := Str("handoff"), "tool" := Null]
  {
  }

  lemma OutcomesStored(reason: Option<HandoffReason>, detail: Option<string>)
    ensures Payload(FinalDecision(Replied, reason, detail))["outcome"] == Str("replied")
    ensures Payload(FinalDecision(HandedOff, reason, detail))["outcome"] == Str("handed_off")
    ensures Payload(FinalDecision(HandedOff, reason, detail))["reason"] ==
            match reason
            case None => Null
            case Some(USER_NOT_FOUND) => Str("USER_NOT_FOUND")
            case Some(DATA_NOT_FOUND) => Str("DATA_NOT_FOUND")
            case Some(UNSUPPORTED_INTENT) => Str("UNSUPPORTED_INTENT")
            case Some(TOOL_ERROR) => Str("TOOL_ERROR")
            case Some(ITERATION_CAP_EXCEEDED) => Str("ITERATION_CAP_EXCEEDED")
            case Some(UNGROUNDED_REPLY) => Str("UNGROUNDED_REPLY")
  {
  }

  lemma ClassesStored(text: string, reason: string)
    ensures ViolationJson(Violation(text, NumberClass, reason)) ==
            Obj(map["literal" := Str(text), "class" := Str("number"), "reason" := Str(reason)])
    ensures ViolationJson(Violation(text, IdentifierClass, reason)) ==
            Obj(map["literal" := Str(text), "class" := Str("identifier"), "reason" := Str(reason)])
    ensures ViolationJson(Violation(text, StatusClass, reason)) ==
            Obj(map["literal" := Str(text), "class" := Str("status"), "reason" := Str(reason)])
  {
  }

  lemma NamesInvert(s: string)
    ensures ParseIntent(s).Some? ==> IntentName(ParseIntent(s).value) == s
    ensures ParseDecision(s).Some? ==> DecisionName(ParseDecision(s).value) == s
    ensures ParseClass(s).Some? ==> ClassName(ParseClass(s).value) == s
  {
  }

  lemma StatusInverts(s: string)
    requires ParseStatus(s).Some?
    ensures StatusName(ParseStatus(s).value) == s
  {
  }

  lemma ReasonInverts(s: string)
    requires ParseReason(s).Some?
    ensures ReasonName(ParseReason(s).value) == s
  {
  }

  lemma {:induction false} StringsInvert(items: seq<Json>)
    requires ParseStrings(items).Some?
    ensures StringItems(ParseStrings(items).value) == items
  {
    if items == [] {
    } else {
      StringsInvert(items[1..]);
      assert items == [items[0]] + items[1..];
    }
  }

  lemma ViolationInverts(j: Json)
    requires ParseViolation(j).Some?
    ensures ViolationJson(ParseViolation(j).value) == j
  {
    NamesInvert(j.fields["class"].s);
  }

  lemma {:induction false} ViolationsInvert(items: seq<Json>)
    requires ParseViolations(items).Some?
    ensures ViolationItems(ParseViolations(items).value) == items
  {
    if items == [] {
    } else {
      ViolationInverts(items[0]);
      ViolationsInvert(items[1..]);
      assert items == [items[0]] + items[1..];
    }
  }

  lemma ErrorInverts(j: Json)
    requires ParseError(j).Some?
    ensures ErrorJson(ParseError(j)) == j
  {
  }

  /** `full` has every field of `given`, with the same value, and beside them only defaults. */
  ghost predicate Completes(full: Fields, given: Fields) {
    (forall key :: key in given ==> key in full && full[key] == given[key]) &&
    forall key :: key in full && key !in given ==> full[key] == Null || full[key] == Arr([])
  }

  lemma IntentCompletes(p: Fields)
    requires p.Keys <= FieldNames("intent_classified") && ParseIntentStep(p).Some?
    ensures Completes(Payload(ParseIntentStep(p).value), p)
  {
    NamesInvert(p["intent"].s);
    StringsInvert(p["matched_keywords"].items);
  }

  lemma DecisionCompletes(p: Fields)
    requires p.Keys <= FieldNames("llm_decision") && ParseDecisionStep(p).Some?
    ensures Completes(Payload(ParseDecisionStep(p).value), p)
  {
    NamesInvert(p["decision"].s);
  }

  lemma ResultCompletes(p: Fields)
    requires p.Keys <= FieldNames("tool_result") && ParseResultStep(p).Some?
    ensures Completes(Payload(ParseResultStep(p).value), p)
  {
    if "error" in p && !p["error"].Null? { ErrorInverts(p["error"]); }
  }

  lemma CheckCompletes(p: Fields)
    requires p.Keys <= FieldNames("grounding_check") && ParseCheckStep(p).Some?
    ensures Completes(Payload(ParseCheckStep(p).value), p)
  {
    if "violations" in p { ViolationsInvert(p["violations"].items); }
  }

  lemma FinalCompletes(p: Fields)
    requires p.Keys <= FieldNames("final_decision") && ParseFinalStep(p).Some?
    ensures Completes(Payload(ParseFinalStep(p).value), p)
  {
    var e := ParseFinalStep(p).value;
    FinalReads(p, e);
    StatusInverts(p["outcome"].s);
    if e.reason.Some? { ReasonInverts(p["reason"].s); }
    FinalFields(p, e.outcome, e.reason, e.detail);
  }

  lemma FinalReads(p: Fields, e: Event)
    requires ParseFinalStep(p) == Some(e)
    ensures e.FinalDecision? && Text(p, "outcome").Some? && ParseStatus(p["outcome"].s) == Some(e.outcome)
    ensures e.reason.Some? <==> "reason" in p && p["reason"].Str?
    ensures e.reason.Some? ==> ParseReason(p["reason"].s) == e.reason
    ensures e.reason.None? && "reason" in p ==> p["reason"] == Null
    ensures OptionalText(p, "detail") == Some(e.detail)
  {
  }

  lemma FinalFields(p: Fields, outcome: TicketStatus, reason: Option<HandoffReason>, detail: Option<string>)
    requires p.Keys <= {"outcome", "reason", "detail"} && "outcome" in p && p["outcome"] == Str(StatusName(outcome))
    requires if reason.Some? then "reason" in p && p["reason"] == Str(ReasonName(reason.value))
             else "reason" in p ==> p["reason"] == Null
    requires OptionalText(p, "detail") == Some(detail)
    ensures Completes(Payload(FinalDecision(outcome, reason, detail)), p)
  {
  }

  lemma EventCompletes(kind: string, p: Fields)
    requires ParseEvent(kind, p).Some?
    ensures Kind(ParseEvent(kind, p).value) == kind && Completes(Payload(ParseEvent(kind, p).value), p)
  {
    if kind == "intent_classified" {
      IntentCompletes(p);
    } else if kind == "llm_decision" {
      DecisionCompletes(p);
    } else if kind == "tool_result" {
      ResultCompletes(p);
    } else if kind == "grounding_check" {
      CheckCompletes(p);
    } else if kind == "final_decision" {
      FinalCompletes(p);
    }
  }

  /** What the validators of a step demand. */
  predicate WellFormed(step: TraceStep) {
    step.number >= 1 &&
    match step.event
    case LLMDecision(iteration, decision, tool) => iteration >= 1 && (decision == CallTool <==> tool != None)
    case GroundingChecked(_, n, _) => n >= 0
    case FinalDecision(outcome, reason, _) =>
      (outcome == Replied && reason == None) || (outcome == HandedOff && reason != None)
    case _ => true
  }

  /** Reading loses and invents nothing: a step read from a row is well formed, has the row's
      number, time and type, and writing it again gives every field of the row's payload back
      (the promoted columns aside), with defaults for those the row left out. */
  lemma ReadIsFaithful(row: StepRow)
    requires FromRow(row).Some?
    ensures var step := FromRow(row).value;
            WellFormed(step) && ToRow(step).number == row.number && ToRow(step).ts == row.ts &&
            ToRow(step).kind == row.kind && Completes(ToRow(step).payload, row.payload - PROMOTED)
  {
    EventCompletes(row.kind, row.payload - PROMOTED);
  }

  /** And a row is read exactly if its step is well formed. */
  lemma WrittenIsRead(step: TraceStep)
    ensures FromRow(ToRow(step)).Some? <==> WellFormed(step)
  {
    RowRoundTrip(step);
  }

  /** Whatever stands in a row, what is read from it is a valid step, with the row's own
      number and time. */
  lemma ReadStepsAreValid(row: StepRow)
    ensures FromRow(row).Some? ==>
              ValidStep(FromRow(row).value) && FromRow(row).value.number == row.number &&
                FromRow(row).value.ts == row.ts
  {
  }
}

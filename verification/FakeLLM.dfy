/** The deterministic agent: intent by keywords, and each next step by what was fetched so far. */
module FakeLLM {
  import opened Wrappers
  import opened Domain
  import opened Trace
  import opened Keywords
  import opened Templates
  import opened Grounding
  import opened Loaders
  import opened Orchestrator

  const USER_TOOL := "get_user"

  function DataTool(intent: Intent): string
    requires intent != UnknownIntent
  {
    if intent == BillingQuestion then "get_invoices" else "get_charging_sessions"
  }

  predicate HasCalled(tool: string, history: seq<Observation>) {
    exists o | o in history :: o.tool == tool
  }

  function Args(request: Request): Fields { map["user_id" := Str(request.userId)] }

  predicate FirstCall(history: seq<Observation>, tool: string, k: int) {
    0 <= k < |history| && history[k].tool == tool && forall j | 0 <= j < k :: history[j].tool != tool
  }

  /** The result of the first call of `tool`. */
  function ResultFor(history: seq<Observation>, tool: string): (r: Result<ToolResult, Exn>)
    ensures r.Failure? <==> forall o :: o in history ==> o.tool != tool
    ensures forall k :: FirstCall(history, tool, k) ==> r == Success(history[k].result)
  {
    if history == [] then Failure(Raised("RuntimeError", "no " + tool + " observation in history", ""))
    else if history[0].tool == tool then Success(history[0].result)
    else ResultFor(history[1..], tool)
  }

  /** The template the statuses imply: a failed invoice first, then a pending one; for
      sessions, the status of the first row. */
  function TemplateFor(intent: Intent, history: seq<Observation>): Result<ReplyTemplate, Exn>
    requires intent != UnknownIntent
  {
    var result :- ResultFor(history, DataTool(intent));
    if intent == BillingQuestion then
      if exists r | r in result.records :: r.User? then Failure(Raised("AttributeError", "status", "status"))
      else
        var statuses := set r | r in result.records :: StatusWord(r);
        if "failed" in statuses then Success(BillingFailed)
        else if "pending" in statuses then Success(BillingPending)
        else Success(BillingAllPaid)
    else if result.records == [] then Failure(Raised("IndexError", "list index out of range", ""))
    else if result.records[0].User? then Failure(Raised("AttributeError", "status", "status"))
    else if result.records[0].Session? && result.records[0].sessionStatus == Completed then Success(SessionCompleted)
    else Success(SessionInterrupted)
  }

  /** The next step, given what the ticket classifies as: the classifier is consulted again
      at every step and always answers the same. */
  function StepFor(intent: Intent, args: Fields, history: seq<Observation>): Result<Step, Exn> {
    if intent == UnknownIntent then Failure(ValueError("decide_next_step called for an unknown intent"))
    else if !HasCalled(USER_TOOL, history) then Success(ToolCall(USER_TOOL, args))
    else if !HasCalled(DataTool(intent), history) then Success(ToolCall(DataTool(intent), args))
    else
      var template :- TemplateFor(intent, history);
      Success(Reply(template))
  }

  /** The shipped template as the orchestrator sees it. */
  function Shipped(name: ReplyTemplate): Renderer {
    Renderer(facts => Render(SpecFor(name), facts), SpecFor(name).safe)
  }

  type Tools = (string, Fields) -> Result<ToolResult, Exn>

  function ToolsOf(db: Database): Tools { (tool, args) => RunRegistered(db, tool, args) }

  /** The deterministic agent over a fixture database, with the shipped templates and the
      grounding checker. */
  function FakeWorld(db: Database, request: Request): World {
    Agent(Classify(request.subject, request.body), Args(request), ToolsOf(db))
  }

  /** The same for a given classification and tools. */
  function Agent(c: Classification, args: Fields, tools: Tools): World {
    World(Success(c),
          (i, history) => StepFor(c.intent, args, history),
          (i, tool, given) => tools(tool, given),
          name => Success(Shipped(name)),
          (reply, facts, safe) => Check(reply, facts, safe))
  }

  /** Its replies are judged by the checker itself. */
  lemma AgentIsGenuine(c: Classification, args: Fields, tools: Tools)
    ensures Genuine(Agent(c, args, tools))
  {
  }
}

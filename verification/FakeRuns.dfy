/** Whole runs of the deterministic agent, over every fixture database and every request. */
module FakeRuns {
  import opened Wrappers
  import opened Domain
  import opened Trace
  import opened Keywords
  import opened Loaders
  import opened Orchestrator
  import opened FakeLLM

  // ---------------------------------------------------------------------------------
  // Fetch, fetch, reply
  // ---------------------------------------------------------------------------------

  /** What the agent does, as long as nothing fails: two calls with the same arguments and
      the reply they lead to. */
  datatype Script = Script(userTool: string, dataTool: string, args: Fields,
                           user: Result<ToolResult, Exn>, data: Result<ToolResult, Exn>, template: ReplyTemplate)
  {
    function User(): Observation
      requires user.Success?
    {
      Observation(userTool, args, user.value)
    }

    function Data(): Observation
      requires data.Success?
    {
      Observation(dataTool, args, data.value)
    }
  }

  ghost predicate Follows(w: World, s: Script) {
    w.decide(1, []) == Success(ToolCall(s.userTool, s.args)) && w.tool(1, s.userTool, s.args) == s.user &&
    (s.user.Success? ==>
      Summarise(s.user.value).Success? &&
      w.decide(2, [s.User()]) == Success(ToolCall(s.dataTool, s.args)) && w.tool(2, s.dataTool, s.args) == s.data &&
      (s.data.Success? ==>
        Summarise(s.data.value).Success? && w.decide(3, [s.User(), s.Data()]) == Success(Reply(s.template))))
  }

  /** How a run that follows the script ends. */
  ghost predicate EndsAsScripted(w: World, s: Script, run: Run) {
    if s.user.Failure? then
      Decisions(run.events) == 1 && run.history == [] && run.outcome == Caught(s.user.error, Some(s.userTool))
    else if s.data.Failure? then
      Decisions(run.events) == 2 && run.history == [s.User()] && run.outcome == Caught(s.data.error, Some(s.dataTool))
    else
      Decisions(run.events) == 3 && run.history == [s.User(), s.Data()] &&
      run.outcome == Ground(w, s.template, [s.User(), s.Data()]).outcome
  }

  /** A turn that makes one call: it fails with the call, or goes on with what came back. */
  ghost predicate CallsOnce(turn: Turn, tool: string, args: Fields, fetched: Result<ToolResult, Exn>) {
    Decisions(turn.events) == 1 &&
    match fetched
    case Failure(x) => turn.Ended? && turn.outcome == Caught(x, Some(tool))
    case Success(result) => turn.Went? && turn.observed == Observation(tool, args, result)
  }

  lemma OneDecision(i: int, tool: string, args: Fields, called: Result<(ToolResult, Fields), Exn>)
    ensures Decisions(CallEvents(i, tool, args, called)) == 1
  {
    var e := CallEvents(i, tool, args, called);
    assert e == [e[0]] + ([e[1]] + [e[2]]);
    DecisionsConcat([e[0]], [e[1]] + [e[2]]);
    DecisionsConcat([e[1]], [e[2]]);
    DecisionsOfOne(e[0]);
    DecisionsOfOne(e[1]);
    DecisionsOfOne(e[2]);
  }

  lemma CallTurn(w: World, i: int, history: seq<Observation>, tool: string, args: Fields,
                 fetched: Result<ToolResult, Exn>)
    requires w.decide(i, history) == Success(ToolCall(tool, args)) && w.tool(i, tool, args) == fetched
    requires fetched.Success? ==> Summarise(fetched.value).Success?
    ensures CallsOnce(TakeTurn(w, i, history), tool, args, fetched)
  {
    OneDecision(i, tool, args, RunTool(w, i, tool, args));
  }

  lemma AfterTurn(turn: Turn, rest: Run, run: Run)
    requires turn.Went? && run == After(turn.events, rest)
    ensures Decisions(run.events) == Decisions(turn.events) + Decisions(rest.events)
    ensures run.outcome == rest.outcome && run.history == rest.history
  {
    DecisionsConcat(turn.events, rest.events);
  }

  lemma GroundDecides(w: World, template: ReplyTemplate, history: seq<Observation>)
    ensures Decisions(Ground(w, template, history).events) == 0
  {
    var events := Ground(w, template, history).events;
    if events != [] { DecisionsOfOne(events[0]); }
  }

  lemma ReplyRun(w: World, i: int, max: int, history: seq<Observation>, template: ReplyTemplate, run: Run)
    requires i <= max && w.decide(i, history) == Success(Reply(template)) && run == Loop(w, i, max, history)
    ensures Decisions(run.events) == 1 && run.history == history && run.outcome == Ground(w, template, history).outcome
  {
    LoopTurn(w, i, max, history, TakeTurn(w, i, history));
    GroundDecides(w, template, history);
    var decision := LLMDecision(i, DoReply, None);
    DecisionsConcat([decision], Ground(w, template, history).events);
    DecisionsOfOne(decision);
  }

  /** One call and what follows it. */
  lemma CallRun(w: World, i: int, max: int, history: seq<Observation>, tool: string, args: Fields,
                fetched: Result<ToolResult, Exn>, run: Run)
    requires i <= max && w.decide(i, history) == Success(ToolCall(tool, args)) && w.tool(i, tool, args) == fetched
    requires fetched.Success? ==> Summarise(fetched.value).Success?
    requires run == Loop(w, i, max, history)
    ensures match fetched
            case Failure(x) =>
              Decisions(run.events) == 1 && run.history == history && run.outcome == Caught(x, Some(tool))
            case Success(result) =>
              var rest := Loop(w, i + 1, max, history + [Observation(tool, args, result)]);
              Decisions(run.events) == 1 + Decisions(rest.events) && run.outcome == rest.outcome &&
                run.history == rest.history
  {
    var turn := TakeTurn(w, i, history);
    CallTurn(w, i, history, tool, args, fetched);
    LoopTurn(w, i, max, history, turn);
    if fetched.Success? {
      AfterTurn(turn, Loop(w, i + 1, max, history + [turn.observed]), run);
    }
  }

  lemma FromSecond(w: World, s: Script, max: int, second: int, history: seq<Observation>, run: Run)
    requires second == 2 && max >= second + 1 && Follows(w, s) && s.user.Success? && history == [s.User()]
    requires run == Loop(w, second, max, history)
    ensures if s.data.Failure? then
              Decisions(run.events) == 1 && run.history == history &&
                run.outcome == Caught(s.data.error, Some(s.dataTool))
            else
              Decisions(run.events) == 2 && run.history == history + [s.Data()] &&
              run.outcome == Ground(w, s.template, history + [s.Data()]).outcome
  {
    CallRun(w, second, max, history, s.dataTool, s.args, s.data, run);
    if s.data.Success? {
      assert history + [s.Data()] == [s.User(), s.Data()];
      ReplyRun(w, second + 1, max, history + [s.Data()], s.template, Loop(w, second + 1, max, history + [s.Data()]));
    }
  }

  lemma FollowsScript(w: World, s: Script, max: int, first: int, none: seq<Observation>, run: Run)
    requires first == 1 && max >= first + 2 && none == [] && Follows(w, s) && run == Loop(w, first, max, none)
    ensures EndsAsScripted(w, s, run)
  {
    CallRun(w, first, max, none, s.userTool, s.args, s.user, run);
    if s.user.Success? {
      assert none + [s.User()] == [s.User()];
      FromSecond(w, s, max, first + 1, none + [s.User()], Loop(w, first + 1, max, none + [s.User()]));
      if s.data.Success? { assert none + [s.User()] + [s.Data()] == [s.User(), s.Data()]; }
    }
  }

  // ---------------------------------------------------------------------------------
  // The agent follows the script
  // ---------------------------------------------------------------------------------

  /** Records of the one kind the intent is about. */
  predicate OneKind(records: seq<Record>, intent: Intent) {
    forall r | r in records :: if intent == BillingQuestion then r.Invoice? else r.Session?
  }

  lemma {:induction false} NonUsersOfOneKind(records: seq<Record>, intent: Intent)
    requires OneKind(records, intent)
    ensures NonUsers(records) == records && References(records, intent == BillingQuestion).Success?
  {
    if records == [] {
    } else {
      assert records[0] in records;
      NonUsersOfOneKind(records[1..], intent);
    }
  }

  lemma DataSummarised(result: ToolResult, intent: Intent)
    requires intent != UnknownIntent && result.tool == DataTool(intent) && OneKind(result.records, intent)
    ensures Summarise(result).Success?
  {
    NonUsersOfOneKind(result.records, intent);
  }

  /** The shapes in which the two tools answer. */
  ghost predicate UserShaped(user: Result<ToolResult, Exn>) {
    user.Success? ==> user.value.tool == USER_TOOL && |user.value.records| == 1 && user.value.records[0].User?
  }

  ghost predicate DataShaped(data: Result<ToolResult, Exn>, intent: Intent)
    requires intent != UnknownIntent
  {
    data.Success? ==>
      data.value.tool == DataTool(intent) && data.value.records != [] && OneKind(data.value.records, intent)
  }

  /** The statuses of the records call for the template. */
  predicate Fitting(template: ReplyTemplate, records: seq<Record>, intent: Intent)
    requires records != [] && OneKind(records, intent)
  {
    if intent == BillingQuestion then
      var failed := exists r | r in records :: r.invoiceStatus == InvoiceFailed;
      var pending := exists r | r in records :: r.invoiceStatus == Pending;
      template == if failed then BillingFailed else if pending then BillingPending else BillingAllPaid
    else template == if records[0].sessionStatus == Completed then SessionCompleted else SessionInterrupted
  }

  lemma ResultOfPair(user: Observation, data: Observation, tool: string)
    requires user.tool != tool && data.tool == tool
    ensures ResultFor([user, data], tool) == Success(data.result)
  {
    assert [user, data][1..] == [data];
  }

  lemma FailedWord(records: seq<Record>)
    ensures forall r :: r in records && r.Invoice? ==>
              (StatusWord(r) == "failed" <==> r.invoiceStatus == InvoiceFailed) &&
              (StatusWord(r) == "pending" <==> r.invoiceStatus == Pending)
  {
  }

  lemma TemplatePicked(user: Observation, data: Observation, intent: Intent)
    requires intent != UnknownIntent && user.tool == USER_TOOL && data.tool == DataTool(intent)
    requires data.result.records != [] && OneKind(data.result.records, intent)
    ensures TemplateFor(intent, [user, data]).Success?
    ensures Fitting(TemplateFor(intent, [user, data]).value, data.result.records, intent)
  {
    ResultOfPair(user, data, DataTool(intent));
    var records := data.result.records;
    assert records[0] in records;
    FailedWord(records);
  }

  lemma FirstStep(intent: Intent, args: Fields)
    requires intent != UnknownIntent
    ensures StepFor(intent, args, []) == Success(ToolCall(USER_TOOL, args))
  {
  }

  lemma SecondStep(intent: Intent, args: Fields, user: Observation)
    requires intent != UnknownIntent && user.tool == USER_TOOL
    ensures StepFor(intent, args, [user]) == Success(ToolCall(DataTool(intent), args))
  {
    assert user in [user];
    assert forall o :: o in [user] ==> o == user;
    assert |DataTool(intent)| != |USER_TOOL|;
  }

  lemma ThirdStep(intent: Intent, args: Fields, user: Observation, data: Observation, template: ReplyTemplate)
    requires intent != UnknownIntent && user.tool == USER_TOOL && data.tool == DataTool(intent)
    requires TemplateFor(intent, [user, data]) == Success(template)
    ensures StepFor(intent, args, [user, data]) == Success(Reply(template))
  {
    assert user in [user, data] && data in [user, data];
  }

  function ScriptOf(intent: Intent, args: Fields, tools: Tools): Script
    requires intent != UnknownIntent
  {
    var user, data := tools(USER_TOOL, args), tools(DataTool(intent), args);
    var template :=
      if user.Failure? || data.Failure? then BillingAllPaid
      else
        var picked := TemplateFor(intent,
          [Observation(USER_TOOL, args, user.value), Observation(DataTool(intent), args, data.value)]);
        if picked.Success? then picked.value else BillingAllPaid;
    Script(USER_TOOL, DataTool(intent), args, user, data, template)
  }

  lemma AgentFollows(c: Classification, args: Fields, tools: Tools, w: World, s: Script)
    requires c.intent != UnknownIntent && w == Agent(c, args, tools) && s == ScriptOf(c.intent, args, tools)
    requires UserShaped(s.user) && DataShaped(s.data, c.intent)
    ensures Follows(w, s)
    ensures s.user.Success? && s.data.Success? ==> Fitting(s.template, s.data.value.records, c.intent)
  {
    FirstStep(c.intent, args);
    if s.user.Success? {
      SecondStep(c.intent, args, s.User());
      if s.data.Success? {
        DataSummarised(s.data.value, c.intent);
        TemplatePicked(s.User(), s.Data(), c.intent);
        ThirdStep(c.intent, args, s.User(), s.Data(), s.template);
      }
    }
  }

  // ---------------------------------------------------------------------------------
  // Over the fixture tools
  // ---------------------------------------------------------------------------------

  lemma UserFetchShape(db: Database, request: Request, user: Result<ToolResult, Exn>)
    requires user == RunRegistered(db, USER_TOOL, Args(request))
    ensures UserShaped(user)
    ensures user.Success? <==> request.userId != "" && GetUser(db, request.userId).Success?
    ensures user.Success? ==> user.value.records == [GetUser(db, request.userId).value]
    ensures request.userId != "" && GetUser(db, request.userId).Failure? ==>
            user.error == GetUser(db, request.userId).error
    ensures request.userId == "" ==> user.Failure? && user.error.Raised?
  {
  }

  lemma InvoiceFetchShape(db: Database, request: Request, data: Result<ToolResult, Exn>)
    requires data == RunRegistered(db, DataTool(BillingQuestion), Args(request))
    ensures DataShaped(data, BillingQuestion)
    ensures data.Success? <==> request.userId != "" && GetInvoices(db, request.userId).Success?
    ensures data.Success? ==> data.value.records == GetInvoices(db, request.userId).value
    ensures request.userId != "" && GetInvoices(db, request.userId).Failure? ==>
            data.error == GetInvoices(db, request.userId).error
    ensures request.userId == "" ==> data.Failure? && data.error.Raised?
  {
    CollectionExact(db, db.invoices, request.userId, "invoice", IssuedAt);
  }

  lemma SessionFetchShape(db: Database, request: Request, data: Result<ToolResult, Exn>)
    requires data == RunRegistered(db, DataTool(ChargingSessionProblem), Args(request))
    ensures DataShaped(data, ChargingSessionProblem)
    ensures data.Success? <==> request.userId != "" && GetSessions(db, request.userId).Success?
    ensures data.Success? ==> data.value.records == GetSessions(db, request.userId).value
    ensures request.userId != "" && GetSessions(db, request.userId).Failure? ==>
            data.error == GetSessions(db, request.userId).error
    ensures request.userId == "" ==> data.Failure? && data.error.Raised?
  {
    CollectionExact(db, db.sessions, request.userId, "charging session", StartedAt);
  }

  lemma AfterIntent(w: World, s: Script, first: Event, loop: Run, run: Run)
    requires EndsAsScripted(w, s, loop) && first.IntentClassified? && run == After([first], loop)
    ensures EndsAsScripted(w, s, run)
  {
    DecisionsConcat([first], loop.events);
    DecisionsOfOne(first);
  }

  lemma AgentRun(c: Classification, args: Fields, tools: Tools, w: World, s: Script, max: int, run: Run)
    requires c.intent != UnknownIntent && w == Agent(c, args, tools) && s == ScriptOf(c.intent, args, tools)
    requires UserShaped(s.user) && DataShaped(s.data, c.intent) && max >= 3 && run == Decide(w, max)
    ensures EndsAsScripted(w, s, run)
    ensures s.user.Success? && s.data.Success? ==> Fitting(s.template, s.data.value.records, c.intent)
  {
    AgentFollows(c, args, tools, w, s);
    var loop := Loop(w, 1, max, []);
    FollowsScript(w, s, max, 1, [], loop);
    AfterIntent(w, s, IntentClassified(c.intent, c.keywords), loop, run);
  }

  /** The script of a request whose intent is known. */
  function ScriptFor(db: Database, request: Request, intent: Intent): Script
    requires intent != UnknownIntent
  {
    ScriptOf(intent, Args(request), ToolsOf(db))
  }

  lemma FetchShapes(db: Database, request: Request, intent: Intent)
    requires intent != UnknownIntent
    ensures UserShaped(ScriptFor(db, request, intent).user) && DataShaped(ScriptFor(db, request, intent).data, intent)
  {
    var s := ScriptFor(db, request, intent);
    UserFetchShape(db, request, s.user);
    if intent == BillingQuestion {
      InvoiceFetchShape(db, request, s.data);
    } else {
      SessionFetchShape(db, request, s.data);
    }
  }

  /** Whatever it is told the intent is, the agent follows the script of that intent. */
  lemma KnownRun(db: Database, request: Request, c: Classification, max: int, w: World, run: Run)
    requires max >= 3 && c.intent != UnknownIntent
    requires w == Agent(c, Args(request), ToolsOf(db)) && run == Decide(w, max)
    ensures EndsAsScripted(w, ScriptFor(db, request, c.intent), run)
  {
    FetchShapes(db, request, c.intent);
    AgentRun(c, Args(request), ToolsOf(db), w, ScriptFor(db, request, c.intent), max, run);
  }

  lemma UnknownRun(c: Classification, max: int, w: World)
    requires c == Classification(UnknownIntent, []) && w.classify == Success(c)
    ensures Decide(w, max) ==
            Run(HandedOffFor(UNSUPPORTED_INTENT, UnsupportedDetail([])), [IntentClassified(UnknownIntent, [])], [])
  {
  }

  /** The agent's world is set by the classification of the request. */
  lemma FakeIsAgent(db: Database, request: Request) returns (c: Classification)
    ensures c == Classify(request.subject, request.body)
    ensures FakeWorld(db, request) == Agent(c, Args(request), ToolsOf(db))
    ensures c.intent == UnknownIntent ==> c.keywords == []
  {
    c := Classify(request.subject, request.body);
    ClassifyExact(request.subject, request.body);
  }

  /** Given three iterations the agent never reaches the cap: it makes one decision for each
      fetch that succeeds and one more, and its outcome is settled by the classification, the
      two fetches and the check of the reply they lead to. */
  lemma FakeRun(db: Database, request: Request, max: int)
    requires max >= 3
    ensures var c := Classify(request.subject, request.body);
            var w := FakeWorld(db, request);
            if c.intent == UnknownIntent
            then Decide(w, max) ==
              Run(HandedOffFor(UNSUPPORTED_INTENT, UnsupportedDetail([])), [IntentClassified(UnknownIntent, [])], [])
            else EndsAsScripted(w, ScriptFor(db, request, c.intent), Decide(w, max))
  {
    var c := FakeIsAgent(db, request);
    var w := FakeWorld(db, request);
    if c.intent == UnknownIntent {
      UnknownRun(c, max, w);
    } else {
      KnownRun(db, request, c, max, w, Decide(w, max));
    }
  }
}

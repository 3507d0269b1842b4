/** What the deterministic agent tells the customer is so: reasons and replies of its runs, in
    terms of the fixture tables. */
module Truthful {
  import opened Text
  import opened Scanners
  import opened Wrappers
  import opened Domain
  import opened FactSets
  import opened Keywords
  import opened Templates
  import opened Letters
  import opened Grounding
  import opened Loaders
  import opened Orchestrator
  import opened FakeLLM
  import opened FakeRuns
  import opened Agreement
  import RunFacts

  // ---------------------------------------------------------------------------------
  // The facts of a run
  // ---------------------------------------------------------------------------------

  /** The facts of one user and their records, row by row. */
  ghost predicate FactsOf(facts: FactSet, user: Record, records: seq<Record>, intent: Intent)
    requires user.User? && OneKind(records, intent)
  {
    facts.userName == Some(user.name) && facts.userId == Some(user.userId) &&
    if intent == BillingQuestion then
      facts.sessions == [] && |facts.invoices| == |records| &&
      forall k :: 0 <= k < |records| ==> facts.invoices[k] == InvoiceFactOf(records[k])
    else
      facts.invoices == [] && |facts.sessions| == |records| &&
      forall k :: 0 <= k < |records| ==> facts.sessions[k] == SessionFactOf(records[k])
  }

  lemma {:induction false} ProjectedRows(start: FactSet, user: Record, records: seq<Record>, intent: Intent)
    requires user.User? && OneKind(records, intent) && FactsOf(start, user, [], intent)
    ensures FactsOf(ProjectAll(start, records), user, records, intent)
  {
    if records == [] {
    } else {
      var front := records[..|records| - 1];
      ProjectedRows(start, user, front, intent);
      var last := records[|records| - 1];
      assert last in records;
    }
  }

  lemma OneProjected(facts: FactSet, r: Record)
    ensures ProjectAll(facts, [r]) == Project(facts, r)
  {
    assert [r][..0] == [];
    assert ProjectAll(facts, []) == facts;
  }

  lemma PairFacts(user: Observation, data: Observation, u: Record, intent: Intent)
    requires user.result.records == [u] && u.User? && OneKind(data.result.records, intent)
    ensures FactsOf(FromObservations([user, data]), u, data.result.records, intent)
  {
    assert [user, data][..1] == [user] && [user][..0] == [];
    OneProjected(NO_FACTS, u);
    var start := Project(NO_FACTS, u);
    assert FromObservations([user]) == start;
    ProjectedRows(start, u, data.result.records, intent);
  }

  /** The template picked from the statuses is one the facts call for. */
  lemma FittingIsChosen(template: ReplyTemplate, facts: FactSet, user: Record, records: seq<Record>, intent: Intent)
    requires user.User? && records != [] && OneKind(records, intent)
    requires Fitting(template, records, intent) && FactsOf(facts, user, records, intent)
    ensures user.name != "" ==> Chosen(template, facts)
    ensures Render(SpecFor(template), facts).Success? <==> user.name != ""
  {
    RendersExactlyWhen(template, facts);
    if intent == BillingQuestion {
      if r :| r in records && r.invoiceStatus == InvoiceFailed {
        var k :| 0 <= k < |records| && records[k] == r;
        assert facts.invoices[k] in facts.invoices;
      } else if r :| r in records && r.invoiceStatus == Pending {
        var k :| 0 <= k < |records| && records[k] == r;
        assert facts.invoices[k] in facts.invoices;
      } else {
        forall f | f in facts.invoices ensures f.status == Paid {
          var k :| 0 <= k < |facts.invoices| && facts.invoices[k] == f;
          assert records[k] in records;
        }
      }
    }
  }

  // ---------------------------------------------------------------------------------
  // What a reply says
  // ---------------------------------------------------------------------------------

  /** `r` is a newest invoice of its status. */
  ghost predicate NewestInvoice(invoices: seq<Record>, status: InvoiceStatus, r: Record) {
    r in invoices && r.Invoice? && r.invoiceStatus == status &&
    forall other :: other in invoices && other.Invoice? && other.invoiceStatus == status ==>
      other.issuedAt <= r.issuedAt
  }

  ghost predicate NewestSession(sessions: seq<Record>, r: Record) {
    r in sessions && r.Session? && forall other :: other in sessions && other.Session? ==>
      other.startedAt <= r.startedAt
  }

  predicate NoneOf(invoices: seq<Record>, status: InvoiceStatus) {
    forall r | r in invoices :: r.Invoice? && r.invoiceStatus != status
  }

  ghost predicate TellsFailed(invoices: seq<Record>, name: string, reply: string) {
    exists r :: NewestInvoice(invoices, InvoiceFailed, r) &&
      reply == FailedLetter(name, r.invoiceId, r.amount, r.currency)
  }

  ghost predicate TellsPending(invoices: seq<Record>, name: string, reply: string) {
    exists r :: NewestInvoice(invoices, Pending, r) && reply == PendingLetter(name, r.invoiceId, r.amount, r.currency)
  }

  ghost predicate TellsAllPaid(invoices: seq<Record>, name: string, reply: string) {
    (forall r :: r in invoices ==> r.Invoice? && r.invoiceStatus == Paid) && reply == AllPaidLetter(name)
  }

  /** A billing letter: all is paid only if every invoice is; otherwise the letter is about a
      newest failed invoice, or, when none has failed, about a newest pending one. */
  ghost predicate TellsBilling(invoices: seq<Record>, name: string, reply: string) {
    if !NoneOf(invoices, InvoiceFailed) then TellsFailed(invoices, name, reply)
    else if !NoneOf(invoices, Pending) then TellsPending(invoices, name, reply)
    else TellsAllPaid(invoices, name, reply)
  }

  predicate SaysCompleted(name: string, r: Record, reply: string)
    requires r.Session?
  {
    reply == CompletedLetter(name, r.station, r.kwh, r.cost)
  }

  predicate SaysEndedEarly(name: string, r: Record, reply: string)
    requires r.Session?
  {
    reply == EndedEarlyLetter(name, r.station, if r.sessionStatus == SessionFailed then "failed" else "interrupted",
               r.kwh, r.cost)
  }

  /** A session letter is about a session that started last, and says how it ended. */
  ghost predicate TellsSession(sessions: seq<Record>, name: string, reply: string) {
    exists r :: NewestSession(sessions, r) &&
      if r.sessionStatus == Completed then SaysCompleted(name, r, reply) else SaysEndedEarly(name, r, reply)
  }

  ghost predicate InvoicesNewestFirst(records: seq<Record>) {
    (forall r :: r in records ==> r.Invoice?) &&
    forall i, j :: 0 <= i < j < |records| && records[i].Invoice? && records[j].Invoice? ==>
      records[i].issuedAt >= records[j].issuedAt
  }

  ghost predicate SessionsNewestFirst(records: seq<Record>) {
    (forall r :: r in records ==> r.Session?) &&
    forall i, j :: 0 <= i < j < |records| && records[i].Session? && records[j].Session? ==>
      records[i].startedAt >= records[j].startedAt
  }

  /** The first invoice of a status, among invoices newest first, is a newest of that status. */
  lemma FirstIsNewest(facts: FactSet, user: Record, records: seq<Record>, status: InvoiceStatus) returns (r: Record)
    requires InvoicesNewestFirst(records) && user.User? && OneKind(records, BillingQuestion)
    requires FactsOf(facts, user, records, BillingQuestion)
    requires First(facts.invoices, status).Success?
    ensures NewestInvoice(records, status, r) && First(facts.invoices, status).value == InvoiceFactOf(r)
  {
    var f := First(facts.invoices, status).value;
    var k :| 0 <= k < |facts.invoices| && facts.invoices[k] == f && f.status == status &&
             forall j :: 0 <= j < k ==> facts.invoices[j].status != status;
    r := records[k];
    assert r in records;
    forall other | other in records && other.Invoice? && other.invoiceStatus == status
      ensures other.issuedAt <= r.issuedAt
    {
      var j :| 0 <= j < |records| && records[j] == other;
      assert facts.invoices[j] == InvoiceFactOf(other);
      if j != k { assert k < j; }
    }
  }

  lemma RenderedHasName(template: ReplyTemplate, facts: FactSet)
    requires Render(SpecFor(template), facts).Success?
    ensures facts.userName.Some? && facts.userName.value != ""
  {
    RendersExactlyWhen(template, facts);
  }

  lemma FailedTold(facts: FactSet, user: Record, records: seq<Record>)
    requires InvoicesNewestFirst(records) && user.User? && OneKind(records, BillingQuestion)
    requires FactsOf(facts, user, records, BillingQuestion) && Render(SpecFor(BillingFailed), facts).Success?
    ensures TellsFailed(records, user.name, Render(SpecFor(BillingFailed), facts).value)
  {
    RenderedHasName(BillingFailed, facts);
    var r := FirstIsNewest(facts, user, records, InvoiceFailed);
    FailedRendered(facts, user.name, InvoiceFactOf(r));
  }

  lemma PendingTold(facts: FactSet, user: Record, records: seq<Record>)
    requires InvoicesNewestFirst(records) && user.User? && OneKind(records, BillingQuestion)
    requires FactsOf(facts, user, records, BillingQuestion) && Render(SpecFor(BillingPending), facts).Success?
    ensures TellsPending(records, user.name, Render(SpecFor(BillingPending), facts).value)
  {
    RenderedHasName(BillingPending, facts);
    var r := FirstIsNewest(facts, user, records, Pending);
    PendingRendered(facts, user.name, InvoiceFactOf(r));
  }

  lemma AllPaidTold(facts: FactSet, user: Record, records: seq<Record>)
    requires user.User? && OneKind(records, BillingQuestion)
    requires FactsOf(facts, user, records, BillingQuestion) && Render(SpecFor(BillingAllPaid), facts).Success?
    requires NoneOf(records, InvoiceFailed) && NoneOf(records, Pending)
    ensures TellsAllPaid(records, user.name, Render(SpecFor(BillingAllPaid), facts).value)
  {
    RenderedHasName(BillingAllPaid, facts);
    AllPaidRendered(facts, user.name);
  }

  lemma FirstIsLatest(records: seq<Record>)
    requires records != [] && SessionsNewestFirst(records)
    ensures NewestSession(records, records[0])
  {
    forall other | other in records && other.Session? ensures other.startedAt <= records[0].startedAt {
      var j :| 0 <= j < |records| && records[j] == other;
      if j != 0 { assert records[0].startedAt >= records[j].startedAt; }
    }
  }

  lemma BillingTold(facts: FactSet, user: Record, records: seq<Record>, template: ReplyTemplate)
    requires InvoicesNewestFirst(records) && user.User? && records != [] && OneKind(records, BillingQuestion)
    requires FactsOf(facts, user, records, BillingQuestion) && Fitting(template, records, BillingQuestion)
    requires Render(SpecFor(template), facts).Success?
    ensures TellsBilling(records, user.name, Render(SpecFor(template), facts).value)
  {
    if !NoneOf(records, InvoiceFailed) {
      assert template == BillingFailed;
      FailedTold(facts, user, records);
    } else if !NoneOf(records, Pending) {
      assert template == BillingPending;
      PendingTold(facts, user, records);
    } else {
      assert template == BillingAllPaid;
      AllPaidTold(facts, user, records);
    }
  }

  lemma CompletedTold(facts: FactSet, name: string, r: Record)
    requires facts.userName == Some(name) && r.Session? && r.sessionStatus == Completed
    requires facts.sessions != [] && facts.sessions[0] == SessionFactOf(r)
    requires Render(SpecFor(SessionCompleted), facts).Success?
    ensures SaysCompleted(name, r, Render(SpecFor(SessionCompleted), facts).value)
  {
    RenderedHasName(SessionCompleted, facts);
    CompletedRendered(facts, name, SessionFactOf(r));
  }

  lemma EndedEarlyTold(facts: FactSet, name: string, r: Record)
    requires facts.userName == Some(name) && r.Session? && r.sessionStatus != Completed
    requires facts.sessions != [] && facts.sessions[0] == SessionFactOf(r)
    requires Render(SpecFor(SessionInterrupted), facts).Success?
    ensures SaysEndedEarly(name, r, Render(SpecFor(SessionInterrupted), facts).value)
  {
    RenderedHasName(SessionInterrupted, facts);
    EndedEarlyRendered(facts, name, SessionFactOf(r));
  }

  lemma SessionTold(facts: FactSet, user: Record, records: seq<Record>, template: ReplyTemplate)
    requires SessionsNewestFirst(records) && user.User? && records != [] && OneKind(records, ChargingSessionProblem)
    requires FactsOf(facts, user, records, ChargingSessionProblem) && Fitting(template, records, ChargingSessionProblem)
    requires Render(SpecFor(template), facts).Success?
    ensures TellsSession(records, user.name, Render(SpecFor(template), facts).value)
  {
    FirstIsLatest(records);
    assert facts.sessions[0] == SessionFactOf(records[0]);
    if records[0].sessionStatus == Completed {
      CompletedTold(facts, user.name, records[0]);
    } else {
      EndedEarlyTold(facts, user.name, records[0]);
    }
  }

  // ---------------------------------------------------------------------------------
  // Outcomes of whole runs
  // ---------------------------------------------------------------------------------

  lemma {:induction false} FirstRaises(invoices: seq<InvoiceFact>, status: InvoiceStatus)
    ensures First(invoices, status).Failure? ==> First(invoices, status).error.Raised?
  {
    if invoices != [] && invoices[0].status != status { FirstRaises(invoices[1..], status); }
  }

  lemma ContextRaises(selector: Selector, facts: FactSet)
    ensures ContextOf(selector, facts).Failure? ==> ContextOf(selector, facts).error.Raised?
  {
    if selector.InvoiceWith? { FirstRaises(facts.invoices, selector.status); }
  }

  lemma RenderRaises(template: Template, facts: FactSet)
    ensures Render(template, facts).Failure? ==> Render(template, facts).error.Raised?
  {
    ContextRaises(template.context, facts);
  }

  /** What becomes of a rendered reply. */
  ghost predicate Issued(outcome: Outcome, reply: Result<string, Exn>, facts: FactSet, safe: set<string>) {
    if reply.Failure? then outcome.status == HandedOff && outcome.reason == Some(TOOL_ERROR)
    else if Check(reply.value, facts, safe).violations == [] then outcome == RepliedWith(reply.value)
    else outcome.status == HandedOff && outcome.reason == Some(UNGROUNDED_REPLY)
  }

  /** What becomes of a reply drafted from `facts` with a shipped template. */
  ghost predicate Drafted(outcome: Outcome, template: ReplyTemplate, facts: FactSet) {
    Issued(outcome, Render(SpecFor(template), facts), facts, SpecFor(template).safe)
  }

  lemma RendererIssues(w: World, template: ReplyTemplate, history: seq<Observation>, facts: FactSet,
                       reply: Result<string, Exn>, safe: set<string>)
    requires reply.Failure? ==> reply.error.Raised?
    requires facts == FromObservations(history) && Genuine(w)
    requires w.resolve(template).Success? && w.resolve(template).value.safe == safe
    requires w.resolve(template).value.render(facts) == reply
    ensures Issued(Ground(w, template, history).outcome, reply, facts, safe)
  {
  }

  lemma AgentDrafts(c: Classification, args: Fields, tools: Tools, template: ReplyTemplate, history: seq<Observation>)
    ensures Drafted(Ground(Agent(c, args, tools), template, history).outcome, template, FromObservations(history))
  {
    var facts := FromObservations(history);
    RenderRaises(SpecFor(template), facts);
    AgentIsGenuine(c, args, tools);
    RendererIssues(Agent(c, args, tools), template, history, facts, Render(SpecFor(template), facts),
      SpecFor(template).safe);
  }

  /** The user and the records a request leads to, when both fetches succeed. */
  ghost predicate Fetched(db: Database, request: Request, intent: Intent, user: Record, records: seq<Record>) {
    user.User? && records != [] && OneKind(records, intent) && request.userId != "" &&
    OnFile(db, request.userId, user) &&
    match intent
    case BillingQuestion => Fetches(db, "get_invoices", request.userId, records) && InvoicesNewestFirst(records)
    case ChargingSessionProblem =>
      Fetches(db, "get_charging_sessions", request.userId, records) && SessionsNewestFirst(records)
    case UnknownIntent => false
  }

  lemma InvoicesSorted(db: Database, userId: string)
    requires GetInvoices(db, userId).Success?
    ensures InvoicesNewestFirst(GetInvoices(db, userId).value)
  {
    CollectionExact(db, db.invoices, userId, "invoice", IssuedAt);
    var r := GetInvoices(db, userId).value;
    forall i, j | 0 <= i < j < |r| ensures r[i].issuedAt >= r[j].issuedAt {
      assert IssuedAt(r[i]) >= IssuedAt(r[j]);
    }
  }

  lemma SessionsSorted(db: Database, userId: string)
    requires GetSessions(db, userId).Success?
    ensures SessionsNewestFirst(GetSessions(db, userId).value)
  {
    CollectionExact(db, db.sessions, userId, "charging session", StartedAt);
    var r := GetSessions(db, userId).value;
    forall i, j | 0 <= i < j < |r| ensures r[i].startedAt >= r[j].startedAt {
      assert StartedAt(r[i]) >= StartedAt(r[j]);
    }
  }

  lemma FetchedRecords(db: Database, request: Request, intent: Intent, s: Script)
    requires intent != UnknownIntent && s == ScriptFor(db, request, intent) && s.user.Success? && s.data.Success?
    ensures |s.user.value.records| == 1 && Fetched(db, request, intent, s.user.value.records[0], s.data.value.records)
  {
    UserFetchShape(db, request, s.user);
    RegistryAnswers(db, USER_TOOL, request.userId);
    RegistryAnswers(db, DataTool(intent), request.userId);
    if intent == BillingQuestion {
      InvoiceFetchShape(db, request, s.data);
      InvoicesSorted(db, request.userId);
    } else {
      SessionFetchShape(db, request, s.data);
      SessionsSorted(db, request.userId);
    }
  }

  /** With both fetches behind it, the run drafts the template the statuses call for. */
  lemma FetchedRunDrafts(db: Database, request: Request, c: Classification, s: Script, user: Record, max: int, w: World,
                         run: Run)
    requires c.intent != UnknownIntent && max >= 3
    requires s == ScriptFor(db, request, c.intent) && s.user.Success? && s.data.Success?
    requires s.user.value.records == [user] && Fetched(db, request, c.intent, user, s.data.value.records)
    requires w == Agent(c, Args(request), ToolsOf(db)) && run == Decide(w, max)
    ensures DraftsFrom(s, user, c.intent, run)
  {
    FetchShapes(db, request, c.intent);
    ScriptDrafts(c, Args(request), ToolsOf(db), w, s, max, run);
    ScriptFacts(s, c.intent, user, run.history);
  }

  /** The run drafted its reply from the facts of the user and of the records fetched. */
  ghost predicate DraftsFrom(s: Script, user: Record, intent: Intent, run: Run) {
    user.User? && s.data.Success? && s.data.value.records != [] && OneKind(s.data.value.records, intent) &&
    FactsOf(FromObservations(run.history), user, s.data.value.records, intent) &&
    Fitting(s.template, s.data.value.records, intent) && Drafted(run.outcome, s.template, FromObservations(run.history))
  }

  lemma ScriptDrafts(c: Classification, args: Fields, tools: Tools, w: World, s: Script, max: int, run: Run)
    requires c.intent != UnknownIntent && max >= 3 && w == Agent(c, args, tools) && run == Decide(w, max)
    requires s == ScriptOf(c.intent, args, tools) && s.user.Success? && s.data.Success?
    requires UserShaped(s.user) && DataShaped(s.data, c.intent)
    ensures run.history == [s.User(), s.Data()] && Fitting(s.template, s.data.value.records, c.intent)
    ensures Drafted(run.outcome, s.template, FromObservations(run.history))
  {
    AgentRun(c, args, tools, w, s, max, run);
    AgentDrafts(c, args, tools, s.template, run.history);
  }

  lemma ScriptFacts(s: Script, intent: Intent, user: Record, history: seq<Observation>)
    requires s.user.Success? && s.data.Success? && history == [s.User(), s.Data()]
    requires s.user.value.records == [user] && user.User? && OneKind(s.data.value.records, intent)
    ensures FactsOf(FromObservations(history), user, s.data.value.records, intent)
  {
    PairFacts(s.User(), s.Data(), user, intent);
  }

  /** What the reply says, in terms of the fixture tables. */
  ghost predicate TellsTruth(db: Database, request: Request, intent: Intent, reply: string) {
    exists user, records :: Fetched(db, request, intent, user, records) &&
      if intent == BillingQuestion then TellsBilling(records, user.name, reply)
      else TellsSession(records, user.name, reply)
  }

  lemma DraftTellsTruth(db: Database, request: Request, intent: Intent, user: Record, records: seq<Record>,
                        facts: FactSet, template: ReplyTemplate, outcome: Outcome)
    requires Fetched(db, request, intent, user, records) && FactsOf(facts, user, records, intent)
    requires Fitting(template, records, intent) && Drafted(outcome, template, facts) && outcome.status == Replied
    ensures outcome.reply.Some? && TellsTruth(db, request, intent, outcome.reply.value)
  {
    if intent == BillingQuestion {
      BillingTold(facts, user, records, template);
    } else {
      SessionTold(facts, user, records, template);
    }
  }

  lemma RepliedNeedsFetches(w: World, s: Script, run: Run)
    requires EndsAsScripted(w, s, run) && run.outcome.status == Replied
    ensures s.user.Success? && s.data.Success?
  {
  }

  lemma AgentTellsTruth(db: Database, request: Request, c: Classification, max: int, w: World, run: Run)
    requires max >= 3 && c.intent != UnknownIntent && run.outcome.status == Replied
    requires w == Agent(c, Args(request), ToolsOf(db)) && run == Decide(w, max)
    ensures run.outcome.reply.Some? && TellsTruth(db, request, c.intent, run.outcome.reply.value)
  {
    KnownRun(db, request, c, max, w, run);
    var s := ScriptFor(db, request, c.intent);
    RepliedNeedsFetches(w, s, run);
    FetchedRecords(db, request, c.intent, s);
    var user := s.user.value.records[0];
    FetchedRunDrafts(db, request, c, s, user, max, w, run);
    DraftTellsTruth(db, request, c.intent, user, s.data.value.records, FromObservations(run.history), s.template,
                    run.outcome);
  }

  /** A reply means the intent was known. */
  lemma RepliedKnowsIntent(w: World, max: int, c: Classification)
    requires w.classify == Success(c) && Decide(w, max).outcome.status == Replied
    ensures c.intent != UnknownIntent
  {
  }

  /** Truthful replies: over every fixture database and every request, a reply of the
      deterministic agent is about the requesting user's own records. "All paid" is said only
      if every invoice is paid; a failed or pending invoice it cites is a newest of that
      status, and a pending one is cited only when none has failed; a session it describes
      started last of all, and is called completed exactly if it was. */
  lemma FakeRepliesAreTrue(db: Database, request: Request, max: int)
    requires max >= 3 && Decide(FakeWorld(db, request), max).outcome.status == Replied
    ensures var run := Decide(FakeWorld(db, request), max);
            run.outcome.reply.Some? &&
              TellsTruth(db, request, Classify(request.subject, request.body).intent, run.outcome.reply.value)
  {
    var c := FakeIsAgent(db, request);
    var w := FakeWorld(db, request);
    RepliedKnowsIntent(w, max, c);
    AgentTellsTruth(db, request, c, max, w, Decide(w, max));
  }

  lemma ScriptIsRegistryShaped(s: Script, intent: Intent, history: seq<Observation>)
    requires intent != UnknownIntent && UserShaped(s.user) && DataShaped(s.data, intent)
    requires s.user.Success? && s.data.Success? && history == [s.User(), s.Data()]
    ensures RunFacts.RegistryShaped(history)
  {
    assert |DataTool(intent)| != |USER_TOOL|;
  }

  lemma FetchedUserId(db: Database, request: Request, intent: Intent, user: Record, records: seq<Record>,
                      facts: FactSet)
    requires Fetched(db, request, intent, user, records) && FactsOf(facts, user, records, intent)
    ensures facts.userId == Some(request.userId)
  {
  }

  /** What the history of a run that replied looks like. */
  lemma RepliedHistory(db: Database, request: Request, c: Classification, max: int, w: World, run: Run)
    requires max >= 3 && c.intent != UnknownIntent && run.outcome.status == Replied
    requires w == Agent(c, Args(request), ToolsOf(db)) && run == Decide(w, max)
    ensures RunFacts.RegistryShaped(run.history) && FromObservations(run.history).userId == Some(request.userId)
  {
    KnownRun(db, request, c, max, w, run);
    var s := ScriptFor(db, request, c.intent);
    RepliedNeedsFetches(w, s, run);
    FetchShapes(db, request, c.intent);
    ScriptIsRegistryShaped(s, c.intent, run.history);
    FetchedRecords(db, request, c.intent, s);
    var user := s.user.value.records[0];
    FetchedRunDrafts(db, request, c, s, user, max, w, run);
    FetchedUserId(db, request, c.intent, user, s.data.value.records, FromObservations(run.history));
  }

  /** Grounding and traceability of the agent's own replies: every digit is accounted for by
      what its fetches returned and by the safe list of the shipped template it drafted with,
      and every identifier is the requesting user's or is listed by a successful tool result of
      the trace. */
  lemma FakeRepliesAreGrounded(db: Database, request: Request, max: int) returns (template: ReplyTemplate)
    requires max >= 3 && Decide(FakeWorld(db, request), max).outcome.status == Replied
    ensures var run := Decide(FakeWorld(db, request), max);
            var facts := FromObservations(run.history);
            run.outcome.reply.Some? && Render(SpecFor(template), facts) == Success(run.outcome.reply.value) &&
            var reply := run.outcome.reply.value;
            (forall i :: 0 <= i < |reply| && IsDigit(reply[i]) ==>
              DigitAccounted(reply, facts, SpecFor(template).safe, i)) &&
            (forall id :: id in Words(reply) && IsIdentifier(id) ==>
              id == request.userId || RunFacts.InTrace(TraceOf(FakeWorld(db, request), max), id))
  {
    var c := FakeIsAgent(db, request);
    var w := FakeWorld(db, request);
    AgentIsGenuine(c, Args(request), ToolsOf(db));
    RepliedKnowsIntent(w, max, c);
    template := RunFacts.RepliesAreGrounded(w, max);
    RepliedHistory(db, request, c, max, w, Decide(w, max));
    var reply := Decide(w, max).outcome.reply.value;
    forall id | id in Words(reply) && IsIdentifier(id)
      ensures id == request.userId || RunFacts.InTrace(TraceOf(w, max), id)
    {
      RunFacts.RepliesAreTraceable(w, max, id);
    }
  }

  // ---------------------------------------------------------------------------------
  // When the agent answers, and why it does not
  // ---------------------------------------------------------------------------------

  lemma InvoicesFound(db: Database, userId: string, records: seq<Record>)
    requires Fetches(db, "get_invoices", userId, records)
    ensures GetInvoices(db, userId).Success? && GetInvoices(db, userId).value == records
  {
    var rows: seq<AnInvoice> :| rows == records && Answers(db, db.invoices, userId, IssuedAt, rows);
    AnswerUnique(db, db.invoices, userId, "invoice", IssuedAt, rows);
  }

  lemma SessionsFound(db: Database, userId: string, records: seq<Record>)
    requires Fetches(db, "get_charging_sessions", userId, records)
    ensures GetSessions(db, userId).Success? && GetSessions(db, userId).value == records
  {
    var rows: seq<ASession> :| rows == records && Answers(db, db.sessions, userId, StartedAt, rows);
    AnswerUnique(db, db.sessions, userId, "charging session", StartedAt, rows);
  }

  lemma FetchedSucceeds(db: Database, request: Request, intent: Intent, user: Record, records: seq<Record>, s: Script)
    requires intent != UnknownIntent && Fetched(db, request, intent, user, records) &&
             s == ScriptFor(db, request, intent)
    ensures s.user.Success? && s.data.Success? && s.user.value.records == [user] && s.data.value.records == records
  {
    UserFetchShape(db, request, s.user);
    OnFileIsFound(db, request.userId, user);
    if intent == BillingQuestion {
      InvoiceFetchShape(db, request, s.data);
      InvoicesFound(db, request.userId, records);
    } else {
      SessionFetchShape(db, request, s.data);
      SessionsFound(db, request.userId, records);
    }
  }

  /** What becomes of the run once the data is found. */
  ghost predicate Settles(outcome: Outcome, user: Record, template: ReplyTemplate, facts: FactSet)
    requires user.User?
  {
    (outcome.reason == Some(TOOL_ERROR) <==> user.name == "") &&
    (user.name != "" ==> (outcome.status == Replied <==> FieldsHold(template, facts)))
  }

  lemma OneFits(a: ReplyTemplate, b: ReplyTemplate, records: seq<Record>, intent: Intent)
    requires records != [] && OneKind(records, intent) && Fitting(a, records, intent) && Fitting(b, records, intent)
    ensures a == b
  {
  }

  lemma AgentAnswers(db: Database, request: Request, c: Classification, user: Record, records: seq<Record>,
                     template: ReplyTemplate, max: int, w: World, run: Run)
    requires max >= 3 && c.intent != UnknownIntent && w == Agent(c, Args(request), ToolsOf(db)) && run == Decide(w, max)
    requires Fetched(db, request, c.intent, user, records) && Fitting(template, records, c.intent)
    ensures Settles(run.outcome, user, template, FromObservations(run.history))
  {
    var s := ScriptFor(db, request, c.intent);
    FetchedSucceeds(db, request, c.intent, user, records, s);
    FetchedRunDrafts(db, request, c, s, user, max, w, run);
    OneFits(s.template, template, records, c.intent);
    SettleDraft(run.outcome, s.template, FromObservations(run.history), user, records, c.intent);
  }

  /** Once the user and their records are found, rendering fails exactly for a user without a
      name, and is then a tool error; otherwise the reply is sent exactly when its
      interpolated fields hold. */
  lemma FakeAnswers(db: Database, request: Request, intent: Intent, user: Record, records: seq<Record>,
                    template: ReplyTemplate, max: int)
    requires max >= 3 && intent == Classify(request.subject, request.body).intent && intent != UnknownIntent
    requires Fetched(db, request, intent, user, records) && Fitting(template, records, intent)
    ensures var outcome := Decide(FakeWorld(db, request), max).outcome;
            var facts := FromObservations(Decide(FakeWorld(db, request), max).history);
            (outcome.reason == Some(TOOL_ERROR) <==> user.name == "") &&
            (user.name != "" ==> (outcome.status == Replied <==> FieldsHold(template, facts)))
  {
    var c := FakeIsAgent(db, request);
    var w := FakeWorld(db, request);
    AgentAnswers(db, request, c, user, records, template, max, w, Decide(w, max));
  }

  lemma SettleDraft(outcome: Outcome, template: ReplyTemplate, facts: FactSet, user: Record, records: seq<Record>,
                    intent: Intent)
    requires user.User? && records != [] && OneKind(records, intent)
    requires Fitting(template, records, intent) && FactsOf(facts, user, records, intent) &&
             Drafted(outcome, template, facts)
    ensures Settles(outcome, user, template, facts)
  {
    FittingIsChosen(template, facts, user, records, intent);
    if user.name != "" {
      LayersAgree(template, facts);
    }
  }

  predicate NoUser(db: Database, userId: string) {
    db.users.Success? && Unfiled(db.users.value, userId)
  }

  /** The table the intent is about can be read and has no row of the user. */
  predicate NoData(db: Database, intent: Intent, userId: string) {
    if intent == BillingQuestion then db.invoices.Success? && Unfiled(db.invoices.value, userId)
    else db.sessions.Success? && Unfiled(db.sessions.value, userId)
  }

  lemma MissingUser(db: Database, userId: string)
    requires GetUser(db, userId).Failure?
    ensures var x := GetUser(db, userId).error;
            (x.UserNotFound? <==> NoUser(db, userId)) && !x.NoDataAvailable?
  {
    GetUserExact(db, userId);
  }

  lemma MissingRows<T>(db: Database, table: Table<T>, userId: string, noun: string, newest: T -> int)
    requires GetUser(db, userId).Success? && Collection(db, table, userId, noun, newest).Failure?
    ensures var x := Collection(db, table, userId, noun, newest).error;
            (x.NoDataAvailable? <==> table.Success? && Unfiled(table.value, userId)) && !x.UserNotFound?
  {
    KnownIsFound(db, userId);
    if table.Success? { UnfiledHasNoRows(table.value, userId); }
    CollectionExact(db, table, userId, noun, newest);
  }

  lemma RowsMeanData(db: Database, intent: Intent, userId: string)
    requires intent != UnknownIntent && NoData(db, intent, userId)
    ensures if intent == BillingQuestion then GetInvoices(db, userId).Failure? else GetSessions(db, userId).Failure?
  {
    if intent == BillingQuestion {
      UnfiledHasNoRows(db.invoices.value, userId);
      CollectionExact(db, db.invoices, userId, "invoice", IssuedAt);
    } else {
      UnfiledHasNoRows(db.sessions.value, userId);
      CollectionExact(db, db.sessions, userId, "charging session", StartedAt);
    }
  }

  /** What the two fetches fail with. */
  lemma FetchFailures(db: Database, request: Request, intent: Intent, s: Script)
    requires intent != UnknownIntent && s == ScriptFor(db, request, intent)
    ensures s.user.Failure? ==>
              (s.user.error.UserNotFound? <==> request.userId != "" && NoUser(db, request.userId)) &&
                !s.user.error.NoDataAvailable?
    ensures s.user.Success? <==> request.userId != "" && Known(db, request.userId)
    ensures s.user.Success? && s.data.Failure? ==>
              (s.data.error.NoDataAvailable? <==> NoData(db, intent, request.userId)) && !s.data.error.UserNotFound?
    ensures s.user.Success? && NoData(db, intent, request.userId) ==> s.data.Failure?
  {
    UserFetchShape(db, request, s.user);
    KnownIsFound(db, request.userId);
    if s.user.Failure? {
      if request.userId != "" { MissingUser(db, request.userId); }
    } else if intent == BillingQuestion {
      InvoiceFetchShape(db, request, s.data);
      if s.data.Failure? { MissingRows(db, db.invoices, request.userId, "invoice", IssuedAt); }
      if NoData(db, intent, request.userId) { RowsMeanData(db, intent, request.userId); }
    } else {
      SessionFetchShape(db, request, s.data);
      if s.data.Failure? { MissingRows(db, db.sessions, request.userId, "charging session", StartedAt); }
      if NoData(db, intent, request.userId) { RowsMeanData(db, intent, request.userId); }
    }
  }

  /** What the reasons of such a run mean. */
  ghost predicate ReasonsRead(db: Database, request: Request, intent: Intent, outcome: Outcome) {
    var known := intent != UnknownIntent;
    (outcome.reason == Some(UNSUPPORTED_INTENT) <==> !known) &&
    (outcome.reason == Some(USER_NOT_FOUND) <==> known && request.userId != "" && NoUser(db, request.userId)) &&
    (outcome.reason == Some(DATA_NOT_FOUND) <==>
      known && request.userId != "" && Known(db, request.userId) && NoData(db, intent, request.userId)) &&
    outcome.reason != Some(ITERATION_CAP_EXCEEDED)
  }

  lemma ScriptedReasons(db: Database, request: Request, intent: Intent, s: Script, run: Run, w: World)
    requires intent != UnknownIntent && s == ScriptFor(db, request, intent) && EndsAsScripted(w, s, run)
    requires s.user.Success? && s.data.Success? ==>
               run.outcome.reason == None || run.outcome.reason == Some(TOOL_ERROR) ||
                 run.outcome.reason == Some(UNGROUNDED_REPLY)
    ensures ReasonsRead(db, request, intent, run.outcome)
  {
    FetchFailures(db, request, intent, s);
  }

  lemma UnknownReasons(db: Database, request: Request, outcome: Outcome)
    requires outcome.reason == Some(UNSUPPORTED_INTENT)
    ensures ReasonsRead(db, request, UnknownIntent, outcome)
  {
  }

  lemma AgentReasons(db: Database, request: Request, c: Classification, max: int, w: World, run: Run)
    requires max >= 3 && c.intent != UnknownIntent
    requires w == Agent(c, Args(request), ToolsOf(db)) && run == Decide(w, max)
    ensures ReasonsRead(db, request, c.intent, run.outcome)
  {
    KnownRun(db, request, c, max, w, run);
    var s := ScriptFor(db, request, c.intent);
    if s.user.Success? && s.data.Success? {
      FetchedRecords(db, request, c.intent, s);
      FetchedRunDrafts(db, request, c, s, s.user.value.records[0], max, w, run);
    }
    ScriptedReasons(db, request, c.intent, s, run, w);
  }

  /** The reasons of the agent's runs can be read off the tables: the user is reported missing
      exactly if the user table has no row of theirs, and the data exactly if the user is known
      and their intent's table has none; the cap is never the reason. */
  lemma FakeReasons(db: Database, request: Request, max: int)
    requires max >= 3
    ensures ReasonsRead(db, request, Classify(request.subject, request.body).intent,
              Decide(FakeWorld(db, request), max).outcome)
  {
    var c := FakeIsAgent(db, request);
    var w := FakeWorld(db, request);
    if c.intent == UnknownIntent {
      UnknownRun(c, max, w);
      UnknownReasons(db, request, Decide(w, max).outcome);
    } else {
      AgentReasons(db, request, c, max, w, Decide(w, max));
    }
  }
}

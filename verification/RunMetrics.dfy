/** Metric conservation: the registry agrees with the traces it was folded from. */
module RunMetrics {
  import opened Wrappers
  import opened Domain
  import opened Trace
  import opened Orchestrator
  import opened Metrics
  import opened MetricFacts

  // ---------------------------------------------------------------------------------
  // What a trace holds
  // ---------------------------------------------------------------------------------

  function Calls(events: seq<Event>, name: string): nat {
    if events == [] then 0
    else (if events[0].ToolCalled? && events[0].name == name then 1 else 0) + Calls(events[1..], name)
  }

  function Returns(events: seq<Event>, name: string, ok: bool): nat {
    if events == [] then 0
    else
      (if events[0].ToolReturned? && events[0].name == name && events[0].ok == ok then 1 else 0) +
      Returns(events[1..], name, ok)
  }

  function OfClass(violations: seq<Violation>, c: LiteralClass): nat {
    if violations == [] then 0
    else OfClass(violations[..|violations| - 1], c) + if violations[|violations| - 1].literalClass == c then 1 else 0
  }

  function ViolatedBy(e: Event, c: LiteralClass): nat { if e.GroundingChecked? then OfClass(e.violations, c) else 0 }

  /** The violations of a class that a trace records. */
  function Violated(events: seq<Event>, c: LiteralClass): nat {
    if events == [] then 0 else ViolatedBy(events[0], c) + Violated(events[1..], c)
  }

  lemma {:induction false} HoldsConcat(a: seq<Event>, b: seq<Event>, name: string, ok: bool, c: LiteralClass)
    ensures Calls(a + b, name) == Calls(a, name) + Calls(b, name)
    ensures Returns(a + b, name, ok) == Returns(a, name, ok) + Returns(b, name, ok)
    ensures Violated(a + b, c) == Violated(a, c) + Violated(b, c)
  {
    if a == [] {
      assert a + b == b;
    } else {
      assert (a + b)[1..] == a[1..] + b;
      HoldsConcat(a[1..], b, name, ok, c);
    }
  }

  lemma HeldByOne(e: Event, name: string, ok: bool, c: LiteralClass)
    ensures Calls([e], name) == if e.ToolCalled? && e.name == name then 1 else 0
    ensures Returns([e], name, ok) == if e.ToolReturned? && e.name == name && e.ok == ok then 1 else 0
    ensures Violated([e], c) == ViolatedBy(e, c)
  {
    assert [e][1..] == [];
  }

  // ---------------------------------------------------------------------------------
  // Every run of the pipeline
  // ---------------------------------------------------------------------------------

  /** Every call has its result. */
  ghost predicate CallsPaired(events: seq<Event>) {
    forall name :: Calls(events, name) == Returns(events, name, true) + Returns(events, name, false)
  }

  lemma PairedConcat(a: seq<Event>, b: seq<Event>)
    requires CallsPaired(a) && CallsPaired(b)
    ensures CallsPaired(a + b)
  {
    forall name ensures Calls(a + b, name) == Returns(a + b, name, true) + Returns(a + b, name, false) {
      HoldsConcat(a, b, name, true, NumberClass);
      HoldsConcat(a, b, name, false, NumberClass);
    }
  }

  lemma PairedOne(e: Event)
    requires !e.ToolCalled? && !e.ToolReturned?
    ensures CallsPaired([e])
  {
    forall name ensures Calls([e], name) == Returns([e], name, true) + Returns([e], name, false) {
      HeldByOne(e, name, true, NumberClass);
      HeldByOne(e, name, false, NumberClass);
    }
  }

  lemma PairedTwo(call: Event, result: Event)
    requires call.ToolCalled? && result.ToolReturned? && call.name == result.name
    ensures CallsPaired([call] + [result])
  {
    forall name
      ensures Calls([call] + [result], name) == Returns([call] + [result], name, true) +
              Returns([call] + [result], name, false)
    {
      HoldsConcat([call], [result], name, true, NumberClass);
      HoldsConcat([call], [result], name, false, NumberClass);
      HeldByOne(call, name, true, NumberClass);
      HeldByOne(result, name, true, NumberClass);
      HeldByOne(call, name, false, NumberClass);
      HeldByOne(result, name, false, NumberClass);
    }
  }

  /** One turn: calls paired, one decision at most. */
  ghost predicate TurnMeasured(turn: Turn) { CallsPaired(turn.events) && Decisions(turn.events) <= 1 }

  lemma CallMeasured(i: int, tool: string, args: Fields, called: Result<(ToolResult, Fields), Exn>)
    ensures CallsPaired(CallEvents(i, tool, args, called)) && Decisions(CallEvents(i, tool, args, called)) == 1
  {
    var e := CallEvents(i, tool, args, called);
    PairedOne(e[0]);
    PairedTwo(e[1], e[2]);
    PairedConcat([e[0]], [e[1]] + [e[2]]);
    DecisionsConcat([e[0]], [e[1]] + [e[2]]);
    DecisionsConcat([e[1]], [e[2]]);
    DecisionsOfOne(e[0]);
    DecisionsOfOne(e[1]);
    DecisionsOfOne(e[2]);
    assert e == [e[0]] + ([e[1]] + [e[2]]);
  }

  lemma GroundMeasured(w: World, template: ReplyTemplate, history: seq<Observation>, decision: Event)
    requires decision.LLMDecision?
    ensures var events := [decision] + Ground(w, template, history).events;
            CallsPaired(events) && Decisions(events) == 1
  {
    var events := Ground(w, template, history).events;
    if events != [] {
      PairedOne(events[0]);
      DecisionsOfOne(events[0]);
      assert events == [events[0]];
    }
    PairedOne(decision);
    DecisionsOfOne(decision);
    PairedConcat([decision], events);
    DecisionsConcat([decision], events);
  }

  lemma TurnIsMeasured(w: World, i: int, history: seq<Observation>)
    ensures TurnMeasured(TakeTurn(w, i, history))
  {
    match w.decide(i, history)
    case Failure(_) =>
    case Success(ToolCall(tool, args)) => CallMeasured(i, tool, args, RunTool(w, i, tool, args));
    case Success(Reply(template)) => GroundMeasured(w, template, history, LLMDecision(i, DoReply, None));
    case Success(Handoff(_)) =>
      PairedOne(LLMDecision(i, GiveUp, None));
      DecisionsOfOne(LLMDecision(i, GiveUp, None));
  }

  lemma JoinMeasured(a: seq<Event>, b: seq<Event>, m: nat, n: nat)
    requires CallsPaired(a) && CallsPaired(b) && Decisions(a) <= m && Decisions(b) <= n
    ensures CallsPaired(a + b) && Decisions(a + b) <= m + n
  {
    PairedConcat(a, b);
    DecisionsConcat(a, b);
  }

  lemma {:induction false} LoopMeasured(w: World, i: int, max: int, history: seq<Observation>, run: Run)
    requires run == Loop(w, i, max, history)
    ensures CallsPaired(run.events) && Decisions(run.events) <= (if i <= max then max - i + 1 else 0)
    decreases if i <= max then max - i + 1 else 0
  {
    if i > max {
    } else {
      var turn := TakeTurn(w, i, history);
      TurnIsMeasured(w, i, history);
      LoopTurn(w, i, max, history, turn);
      if turn.Went? {
        var more := Loop(w, i + 1, max, history + [turn.observed]);
        LoopMeasured(w, i + 1, max, history + [turn.observed], more);
        JoinMeasured(turn.events, more.events, 1, max - i);
      }
    }
  }

  /** What the metrics rely on: a terminal status with a reason exactly if handed off, every
      call paired with its result, and no more decisions than the cap allows. */
  ghost predicate Settled(run: Finished, max: nat) {
    run.status != Processing && (run.reason.Some? <==> run.status == HandedOff) &&
    CallsPaired(EventsOf(run.steps)) && Decisions(EventsOf(run.steps)) <= max
  }

  lemma DecidedMeasured(w: World, max: nat, run: Run)
    requires run == Decide(w, max)
    ensures CallsPaired(run.events) && Decisions(run.events) <= max
  {
    if w.classify.Success? {
      var first := IntentClassified(w.classify.value.intent, w.classify.value.keywords);
      PairedOne(first);
      DecisionsOfOne(first);
      if first.intent != UnknownIntent {
        var loop := Loop(w, 1, max, []);
        LoopMeasured(w, 1, max, [], loop);
        JoinMeasured([first], loop.events, 0, max);
      }
    }
  }

  /** Every run of the pipeline is settled, whatever the model, tools and templates do. */
  lemma RunsSettle(w: World, max: nat, run: Finished)
    requires EventsOf(run.steps) == TraceOf(w, max)
    requires run.status == Decide(w, max).outcome.status && run.reason == Decide(w, max).outcome.reason
    ensures Settled(run, max)
  {
    var decided := Decide(w, max);
    var last := Final(decided.outcome);
    DecidedMeasured(w, max, decided);
    OutcomesArePaired(w, max);
    PairedOne(last);
    DecisionsOfOne(last);
    JoinMeasured(decided.events, [last], max, 0);
  }

  // ---------------------------------------------------------------------------------
  // What a run adds
  // ---------------------------------------------------------------------------------

  lemma {:induction false} ViolationBag(found: seq<Violation>, u: Update)
    ensures multiset(ViolationUpdates(found))[u] == if u.ViolationInc? then OfClass(found, u.literalClass) else 0
  {
    if found == [] {
    } else {
      ViolationBag(found[..|found| - 1], u);
    }
  }

  lemma StepBag(e: Event, u: Update)
    ensures multiset(StepUpdates(e))[u] ==
            if u.ToolInc? then (if e.ToolReturned? && e.name == u.tool && e.ok == u.ok then 1 else 0)
            else if u.ViolationInc? then ViolatedBy(e, u.literalClass)
            else 0
  {
    if e.GroundingChecked? { ViolationBag(e.violations, u); }
  }

  lemma {:induction false} TraceBag(events: seq<Event>, u: Update)
    ensures multiset(TraceUpdates(events))[u] ==
            if u.ToolInc? then Returns(events, u.tool, u.ok)
            else if u.ViolationInc? then Violated(events, u.literalClass)
            else 0
  {
    if events == [] {
    } else {
      var front, last := events[..|events| - 1], events[|events| - 1];
      assert events == front + [last];
      TraceBag(front, u);
      StepBag(last, u);
      var name, c := if u.ToolInc? then u.tool else "", if u.ViolationInc? then u.literalClass else NumberClass;
      HoldsConcat(front, [last], name, u.ToolInc? && u.ok, c);
      HeldByOne(last, name, u.ToolInc? && u.ok, c);
    }
  }

  /** How often a run makes an update. */
  function Makes(run: Finished, u: Update): nat {
    match u
    case TicketInc(s) => if run.status == s then 1 else 0
    case HandoffInc(r) => if run.reason == Some(r) then 1 else 0
    case ToolInc(tool, ok) => Returns(EventsOf(run.steps), tool, ok)
    case ViolationInc(c) => Violated(EventsOf(run.steps), c)
    case IterationsSeen(n) => if Decisions(EventsOf(run.steps)) == n then 1 else 0
    case DurationSeen(s, us) => if run.steps != [] && run.status == s &&
      run.steps[|run.steps| - 1].ts - run.steps[0].ts == us then 1 else 0
  }

  lemma OutcomeBag(run: Finished, u: Update)
    ensures multiset(OutcomeUpdates(run.status, run.reason))[u] ==
            if u.TicketInc? || u.HandoffInc? then Makes(run, u) else 0
  {
    if run.reason.None? { assert OutcomeUpdates(run.status, run.reason) == [TicketInc(run.status)]; }
  }

  lemma DurationBag(run: Finished, u: Update)
    ensures multiset(DurationUpdates(run))[u] == if u.DurationSeen? then Makes(run, u) else 0
  {
  }

  lemma FourBags(a: seq<Update>, b: seq<Update>, c: seq<Update>, d: seq<Update>, u: Update)
    ensures multiset(a + b + c + d)[u] == multiset(a)[u] + multiset(b)[u] + multiset(c)[u] + multiset(d)[u]
  {
  }

  lemma RunBag(run: Finished, u: Update)
    ensures multiset(RunUpdates(run))[u] == Makes(run, u)
  {
    var events := EventsOf(run.steps);
    OutcomeBag(run, u);
    DurationBag(run, u);
    TraceBag(events, u);
    FourBags(OutcomeUpdates(run.status, run.reason), [IterationsSeen(Decisions(events))], TraceUpdates(events),
      DurationUpdates(run), u);
  }

  // ---------------------------------------------------------------------------------
  // What many runs add up to
  // ---------------------------------------------------------------------------------

  function AllUpdates(runs: seq<Finished>): seq<Update> {
    if runs == [] then [] else AllUpdates(runs[..|runs| - 1]) + RunUpdates(runs[|runs| - 1])
  }

  /** How often the runs make an update between them. */
  function MadeBy(runs: seq<Finished>, u: Update): nat {
    if runs == [] then 0 else MadeBy(runs[..|runs| - 1], u) + Makes(runs[|runs| - 1], u)
  }

  lemma {:induction false} AllBag(runs: seq<Finished>, u: Update)
    ensures multiset(AllUpdates(runs))[u] == MadeBy(runs, u)
  {
    if runs == [] {
    } else {
      AllBag(runs[..|runs| - 1], u);
      RunBag(runs[|runs| - 1], u);
    }
  }

  function WithStatus(runs: seq<Finished>, s: TicketStatus): nat {
    if runs == [] then 0 else WithStatus(runs[..|runs| - 1], s) + if runs[|runs| - 1].status == s then 1 else 0
  }

  function CallsIn(runs: seq<Finished>, name: string): nat {
    if runs == [] then 0 else CallsIn(runs[..|runs| - 1], name) + Calls(EventsOf(runs[|runs| - 1].steps), name)
  }

  function ViolatedIn(runs: seq<Finished>, c: LiteralClass): nat {
    if runs == [] then 0 else ViolatedIn(runs[..|runs| - 1], c) + Violated(EventsOf(runs[|runs| - 1].steps), c)
  }

  function Handoffs(runs: seq<Finished>): nat {
    MadeBy(runs, HandoffInc(USER_NOT_FOUND)) + MadeBy(runs, HandoffInc(DATA_NOT_FOUND)) +
    MadeBy(runs, HandoffInc(UNSUPPORTED_INTENT)) + MadeBy(runs, HandoffInc(TOOL_ERROR)) +
    MadeBy(runs, HandoffInc(ITERATION_CAP_EXCEEDED)) + MadeBy(runs, HandoffInc(UNGROUNDED_REPLY))
  }

  /** The six reasons, for one run. */
  function HandoffsOf(run: Finished): nat {
    Makes(run, HandoffInc(USER_NOT_FOUND)) + Makes(run, HandoffInc(DATA_NOT_FOUND)) +
    Makes(run, HandoffInc(UNSUPPORTED_INTENT)) + Makes(run, HandoffInc(TOOL_ERROR)) +
    Makes(run, HandoffInc(ITERATION_CAP_EXCEEDED)) + Makes(run, HandoffInc(UNGROUNDED_REPLY))
  }

  lemma OneReason(run: Finished, max: nat)
    requires Settled(run, max)
    ensures HandoffsOf(run) == if run.status == HandedOff then 1 else 0
  {
    if run.reason.Some? {
      match run.reason.value
      case USER_NOT_FOUND =>
      case DATA_NOT_FOUND =>
      case UNSUPPORTED_INTENT =>
      case TOOL_ERROR =>
      case ITERATION_CAP_EXCEEDED =>
      case UNGROUNDED_REPLY =>
    }
  }

  lemma HandoffsNext(runs: seq<Finished>)
    requires runs != []
    ensures Handoffs(runs) == Handoffs(runs[..|runs| - 1]) + HandoffsOf(runs[|runs| - 1])
  {
  }

  /** Across settled runs: tickets by status; as many handoff reasons as handed-off runs; each
      call counted once, by how it came out; and the violations the traces record. */
  lemma {:induction false} MadeByRuns(runs: seq<Finished>, max: nat, s: TicketStatus, name: string, c: LiteralClass)
    requires forall run :: run in runs ==> Settled(run, max)
    ensures MadeBy(runs, TicketInc(s)) == WithStatus(runs, s)
    ensures Handoffs(runs) == WithStatus(runs, HandedOff)
    ensures MadeBy(runs, ToolInc(name, true)) + MadeBy(runs, ToolInc(name, false)) == CallsIn(runs, name)
    ensures MadeBy(runs, ViolationInc(c)) == ViolatedIn(runs, c)
  {
    if runs != [] {
      MadeByRuns(runs[..|runs| - 1], max, s, name, c);
      assert runs[|runs| - 1] in runs;
      HandoffsNext(runs);
      OneReason(runs[|runs| - 1], max);
    } else {
      assert Handoffs(runs) == 0;
    }
  }

  /** The sum over all six reasons. */
  function HandoffTotal(t: Totals): nat {
    Count(t.handoffs, USER_NOT_FOUND) + Count(t.handoffs, DATA_NOT_FOUND) + Count(t.handoffs, UNSUPPORTED_INTENT) +
    Count(t.handoffs, TOOL_ERROR) + Count(t.handoffs, ITERATION_CAP_EXCEEDED) + Count(t.handoffs, UNGROUNDED_REPLY)
  }

  /** The counters agree with the runs and their traces. */
  ghost predicate Conserves(t: Totals, runs: seq<Finished>) {
    (forall s :: Count(t.tickets, s) == WithStatus(runs, s)) &&
    HandoffTotal(t) == Count(t.tickets, HandedOff) &&
    (forall name :: Count(t.tools, (name, true)) + Count(t.tools, (name, false)) == CallsIn(runs, name)) &&
    (forall c :: Count(t.violations, c) == ViolatedIn(runs, c))
  }

  lemma ConserveCounted(t: Totals, bag: multiset<Update>, runs: seq<Finished>, max: nat)
    requires (forall run :: run in runs ==> Settled(run, max)) && Counted(t, bag)
    requires forall u :: bag[u] == MadeBy(runs, u)
    ensures Conserves(t, runs)
  {
    forall s ensures Count(t.tickets, s) == WithStatus(runs, s) { MadeByRuns(runs, max, s, "", NumberClass); }
    forall name ensures Count(t.tools, (name, true)) + Count(t.tools, (name, false)) == CallsIn(runs, name) {
      MadeByRuns(runs, max, Processing, name, NumberClass);
    }
    forall c ensures Count(t.violations, c) == ViolatedIn(runs, c) { MadeByRuns(runs, max, Processing, "", c); }
    MadeByRuns(runs, max, HandedOff, "", NumberClass);
  }

  /** Conservation: once settled runs have been folded in -- in any order, and with their
      updates interleaved in any way -- the tickets counted are the runs by status, the handoff
      reasons are as many as the handed-off runs, every call of every trace is counted once, by
      how it came out, and the violations are those the traces record. */
  lemma MetricsConserve(runs: seq<Finished>, max: nat, us: seq<Update>, ib: seq<real>, db: seq<real>)
    requires (forall run :: run in runs ==> Settled(run, max)) && multiset(us) == multiset(AllUpdates(runs))
    ensures Conserves(ApplyAll(NO_TOTALS, us, ib, db), runs)
  {
    CountersCount(us, ib, db);
    forall u ensures multiset(us)[u] == MadeBy(runs, u) { AllBag(runs, u); }
    ConserveCounted(ApplyAll(NO_TOTALS, us, ib, db), multiset(us), runs, max);
  }

  // ---------------------------------------------------------------------------------
  // Iterations and durations
  // ---------------------------------------------------------------------------------

  lemma {:induction false} ValuesConcat(a: seq<Update>, b: seq<Update>)
    ensures IterationValues(a + b) == IterationValues(a) + IterationValues(b)
    decreases |b|
  {
    if b == [] {
      assert a + b == a;
    } else {
      assert (a + b)[..|a + b| - 1] == a + b[..|b| - 1];
      ValuesConcat(a, b[..|b| - 1]);
    }
  }

  lemma {:induction false} NoIterations(us: seq<Update>)
    requires forall u :: u in us ==> !u.IterationsSeen?
    ensures IterationValues(us) == []
  {
    if us == [] {
    } else {
      assert us[|us| - 1] in us;
      NoIterations(us[..|us| - 1]);
    }
  }

  lemma {:induction false} TraceHasNoIterations(events: seq<Event>)
    ensures forall u :: u in TraceUpdates(events) ==> !u.IterationsSeen?
  {
    if events == [] {
    } else {
      TraceHasNoIterations(events[..|events| - 1]);
      StepHasNoIterations(events[|events| - 1]);
    }
  }

  lemma StepHasNoIterations(e: Event)
    ensures forall u :: u in StepUpdates(e) ==> !u.IterationsSeen?
  {
    if e.GroundingChecked? { ViolationsOnly(e.violations); }
  }

  lemma {:induction false} ViolationsOnly(found: seq<Violation>)
    ensures forall u :: u in ViolationUpdates(found) ==> u.ViolationInc?
  {
    if found == [] {
    } else {
      ViolationsOnly(found[..|found| - 1]);
    }
  }

  /** A run observes one number of iterations: the decisions of its trace. */
  lemma RunObservesOnce(run: Finished)
    ensures IterationValues(RunUpdates(run)) == [Decisions(EventsOf(run.steps)) as real]
  {
    var events := EventsOf(run.steps);
    var a, c, d := OutcomeUpdates(run.status, run.reason), TraceUpdates(events), DurationUpdates(run);
    TraceHasNoIterations(events);
    NoIterations(a);
    NoIterations(c);
    NoIterations(d);
    OneAmongOthers(a, IterationsSeen(Decisions(events)), c, d);
  }

  lemma OneAmongOthers(a: seq<Update>, u: Update, c: seq<Update>, d: seq<Update>)
    requires u.IterationsSeen? && IterationValues(a) == [] && IterationValues(c) == [] && IterationValues(d) == []
    ensures IterationValues(a + [u] + c + d) == [u.n as real]
  {
    ValuesConcat(a + [u] + c, d);
    ValuesConcat(a + [u], c);
    ValuesConcat(a, [u]);
    assert [u][..0] == [];
  }

  predicate Below(seen: seq<real>, bound: real) {
    forall k | 0 <= k < |seen| :: seen[k] <= bound
  }

  lemma {:induction false} AllBelow(seen: seq<real>, bound: real)
    requires Below(seen, bound)
    ensures AtMost(seen, bound) == |seen|
  {
    if seen == [] {
    } else {
      AllBelow(seen[..|seen| - 1], bound);
    }
  }

  lemma {:induction false} IterationsOfRuns(runs: seq<Finished>, max: nat)
    requires forall run :: run in runs ==> Settled(run, max)
    ensures |IterationValues(AllUpdates(runs))| == |runs|
    ensures Below(IterationValues(AllUpdates(runs)), max as real)
  {
    if runs == [] {
    } else {
      var front, last := runs[..|runs| - 1], runs[|runs| - 1];
      assert last in runs;
      IterationsOfRuns(front, max);
      RunObservesOnce(last);
      ValuesConcat(AllUpdates(front), RunUpdates(last));
    }
  }

  /** Each run adds one observation of iterations. */
  lemma IterationsCounted(runs: seq<Finished>, max: nat, us: seq<Update>, ib: seq<real>, db: seq<real>)
    requires (forall run :: run in runs ==> Settled(run, max)) && multiset(us) == multiset(AllUpdates(runs))
    ensures TallyAt(ib, ApplyAll(NO_TOTALS, us, ib, db).iterations, ()).count == |runs|
  {
    var all := AllUpdates(runs);
    OrderIrrelevant(NO_TOTALS, us, all, ib, db);
    IterationsTally(all, ib, db);
    IterationsOfRuns(runs, max);
    NothingLost(ib, IterationValues(all));
  }

  /** Each run adds one observation of iterations, and none is above the cap: a bucket whose
      bound is the cap holds them all. */
  lemma IterationsBounded(runs: seq<Finished>, max: nat, us: seq<Update>, ib: seq<real>, db: seq<real>, i: nat)
    requires (forall run :: run in runs ==> Settled(run, max)) && multiset(us) == multiset(AllUpdates(runs))
    requires Rising(ib) && i < |ib| && ib[i] >= max as real
    ensures var t := TallyAt(ib, ApplyAll(NO_TOTALS, us, ib, db).iterations, ());
            t.count == |runs| && Shaped(ib, t) && Cumulative(t.counts, i) == |runs|
  {
    var all := AllUpdates(runs);
    OrderIrrelevant(NO_TOTALS, us, all, ib, db);
    IterationsTally(all, ib, db);
    IterationsOfRuns(runs, max);
    var seen := IterationValues(all);
    HistogramCorrect(ib, seen);
    AllBelow(seen, ib[i]);
  }

  /** On a clock that ticks at every reading, the duration of a run is one tick for each step
      after the first. */
  lemma DurationOfRun(run: Finished, events: seq<Event>, done: nat, start: int, tick: int)
    requires run.steps == Stamp(events, done, start, tick) && events != []
    ensures DurationUpdates(run) == [DurationSeen(run.status, (|events| - 1) * tick)]
  {
    assert start + (|events| - 1) * tick - (start + 0 * tick) == (|events| - 1) * tick;
  }

  // ---------------------------------------------------------------------------------
  // What one run adds to any registry
  // ---------------------------------------------------------------------------------

  lemma {:induction false} DurationsConcat(a: seq<Update>, b: seq<Update>, s: TicketStatus)
    ensures DurationValues(a + b, s) == DurationValues(a, s) + DurationValues(b, s)
    decreases |b|
  {
    if b == [] {
      assert a + b == a;
    } else {
      assert (a + b)[..|a + b| - 1] == a + b[..|b| - 1];
      DurationsConcat(a, b[..|b| - 1], s);
    }
  }

  lemma {:induction false} NoDurations(us: seq<Update>, s: TicketStatus)
    requires forall u :: u in us ==> !u.DurationSeen?
    ensures DurationValues(us, s) == []
  {
    if us == [] {
    } else {
      assert us[|us| - 1] in us;
      NoDurations(us[..|us| - 1], s);
    }
  }

  lemma {:induction false} TraceHasNoDurations(events: seq<Event>)
    ensures forall u :: u in TraceUpdates(events) ==> !u.DurationSeen?
  {
    if events == [] {
    } else {
      TraceHasNoDurations(events[..|events| - 1]);
      if events[|events| - 1].GroundingChecked? { ViolationsOnly(events[|events| - 1].violations); }
    }
  }

  /** A run observes at most one duration, under its own status. */
  lemma RunLastsOnce(run: Finished, s: TicketStatus)
    ensures DurationValues(RunUpdates(run), s) ==
            if run.steps == [] || run.status != s then []
            else [Seconds(run.steps[|run.steps| - 1].ts - run.steps[0].ts)]
  {
    var events := EventsOf(run.steps);
    var head := OutcomeUpdates(run.status, run.reason) + [IterationsSeen(Decisions(events))];
    TraceHasNoDurations(events);
    NoDurations(head, s);
    NoDurations(TraceUpdates(events), s);
    LastAmongOthers(head, TraceUpdates(events), DurationUpdates(run), s);
    LastsSo(run, s);
  }

  lemma LastAmongOthers(a: seq<Update>, b: seq<Update>, last: seq<Update>, s: TicketStatus)
    requires DurationValues(a, s) == [] && DurationValues(b, s) == []
    ensures DurationValues(a + b + last, s) == DurationValues(last, s)
  {
    DurationsConcat(a + b, last, s);
    DurationsConcat(a, b, s);
  }

  lemma LastsSo(run: Finished, s: TicketStatus)
    ensures DurationValues(DurationUpdates(run), s) ==
            if run.steps == [] || run.status != s then []
            else [Seconds(run.steps[|run.steps| - 1].ts - run.steps[0].ts)]
  {
    if run.steps != [] {
      var last := DurationUpdates(run);
      assert last[..0] == [] && |last| == 1;
    }
  }

  /** One run more in the counters: its status and reason, and the violations and tool results
      of its trace. */
  ghost predicate CountsOne(before: Totals, after: Totals, run: Finished) {
    (forall s :: Count(after.tickets, s) == Count(before.tickets, s) + if run.status == s then 1 else 0) &&
    (forall r :: Count(after.handoffs, r) == Count(before.handoffs, r) + if run.reason == Some(r) then 1 else 0) &&
    (forall c :: Count(after.violations, c) == Count(before.violations, c) + Violated(EventsOf(run.steps), c)) &&
    forall tool, ok ::
      Count(after.tools, (tool, ok)) == Count(before.tools, (tool, ok)) + Returns(EventsOf(run.steps), tool, ok)
  }

  /** How long a run took, in seconds, if it left any step. */
  function Elapsed(run: Finished): seq<real> {
    if run.steps == [] then []
    else [(run.steps[|run.steps| - 1].ts - run.steps[0].ts) as real / 1000000.0]
  }

  /** One run more in the histograms: its decisions, and its seconds under its own status. */
  ghost predicate ObservesOne(before: Totals, after: Totals, run: Finished, ib: seq<real>, db: seq<real>)
    requires WellShaped(before, ib, db)
  {
    TallyAt(ib, after.iterations, ()) ==
      AddAll(ib, TallyAt(ib, before.iterations, ()), [Decisions(EventsOf(run.steps)) as real]) &&
    forall s ::
      TallyAt(db, after.durations, s) ==
        AddAll(db, TallyAt(db, before.durations, s), if run.status == s then Elapsed(run) else [])
  }

  lemma CountersTakeIn(before: Totals, after: Totals, run: Finished, bag: multiset<Update>)
    requires Grew(before, after, bag) && forall u :: bag[u] == Makes(run, u)
    ensures CountsOne(before, after, run)
  {
  }

  lemma SeriesTakeIn(t: Totals, us: seq<Update>, run: Finished, ib: seq<real>, db: seq<real>)
    requires WellShaped(t, ib, db) && IterationValues(us) == [Decisions(EventsOf(run.steps)) as real]
    requires forall s :: DurationValues(us, s) == if run.status == s then Elapsed(run) else []
    ensures ObservesOne(t, ApplyAll(t, us, ib, db), run, ib, db)
  {
    TalliesShaped(t, ib, db, Processing);
    IterationsGrow(t, us, ib, db);
    forall s
      ensures Shaped(db, TallyAt(db, t.durations, s))
      ensures TallyAt(db, ApplyAll(t, us, ib, db).durations, s) ==
              AddAll(db, TallyAt(db, t.durations, s), if run.status == s then Elapsed(run) else [])
    {
      TalliesShaped(t, ib, db, s);
      DurationsGrow(t, us, ib, db, s);
    }
  }

  /** What the updates of a run amount to. */
  ghost predicate UpdatesOf(us: seq<Update>, run: Finished) {
    (forall u :: multiset(us)[u] == Makes(run, u)) &&
    IterationValues(us) == [Decisions(EventsOf(run.steps)) as real] &&
    forall s :: DurationValues(us, s) == if run.status == s then Elapsed(run) else []
  }

  lemma RunAmounts(run: Finished)
    ensures UpdatesOf(RunUpdates(run), run)
  {
    forall u ensures multiset(RunUpdates(run))[u] == Makes(run, u) { RunBag(run, u); }
    RunObservesOnce(run);
    forall s ensures DurationValues(RunUpdates(run), s) == if run.status == s then Elapsed(run) else [] {
      RunLastsOnce(run, s);
    }
  }

  lemma UpdatesTakeIn(t: Totals, after: Totals, run: Finished, us: seq<Update>, ib: seq<real>, db: seq<real>)
    requires WellShaped(t, ib, db) && UpdatesOf(us, run) && after == ApplyAll(t, us, ib, db)
    ensures CountsOne(t, after, run) && ObservesOne(t, after, run, ib, db)
  {
    CountersGrow(t, us, ib, db);
    CountersTakeIn(t, after, run, multiset(us));
    SeriesTakeIn(t, us, run, ib, db);
  }

  /** Folding a run in does exactly this, whatever the registry held before. */
  lemma RunTakenIn(t: Totals, run: Finished, ib: seq<real>, db: seq<real>)
    requires WellShaped(t, ib, db)
    ensures var after := ApplyAll(t, RunUpdates(run), ib, db);
            CountsOne(t, after, run) && ObservesOne(t, after, run, ib, db)
  {
    RunAmounts(run);
    UpdatesTakeIn(t, ApplyAll(t, RunUpdates(run), ib, db), run, RunUpdates(run), ib, db);
  }
}

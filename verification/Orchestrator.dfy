/**
 The orchestrator: classify, loop, ground. The model, the tools and the templates are
 arbitrary: each may answer anything or raise, at every call.
 */
module Orchestrator {
  import opened Wrappers
  import opened Decimals
  import opened Domain
  import opened FactSets
  import opened Grounding
  import opened Trace

  /** A template as the orchestrator sees it. */
  datatype Renderer = Renderer(render: FactSet -> Result<string, Exn>, safe: set<string>)

  /** Everything a run depends on. Decisions and tool results may depend on the iteration as
      well as on what was asked, so an answer may change from call to call. The checker is a
      parameter too: how the loop runs and what it records does not depend on its verdicts
      being right. `Genuine` says it is the grounding checker. */
  datatype World = World(
    classify: Result<Classification, Exn>,
    decide: (int, seq<Observation>) -> Result<Step, Exn>,
    tool: (int, string, Fields) -> Result<ToolResult, Exn>,
    resolve: ReplyTemplate -> Result<Renderer, Exn>,
    verify: (string, FactSet, set<string>) -> GroundingResult)

  ghost predicate Genuine(w: World) {
    forall reply, facts, safe :: w.verify(reply, facts, safe) == Check(reply, facts, safe)
  }

  datatype Outcome = Outcome(status: TicketStatus, reply: Option<string>, reason: Option<HandoffReason>,
                             detail: Option<string>)

  function RepliedWith(reply: string): Outcome { Outcome(Replied, Some(reply), None, None) }

  function HandedOffFor(reason: HandoffReason, detail: string): Outcome {
    Outcome(HandedOff, None, Some(reason), Some(detail))
  }

  // Handoff details -------------------------------------------------------------------

  function JoinWith(words: seq<string>, sep: string): string {
    if words == [] then "" else if |words| == 1 then words[0] else words[0] + sep + JoinWith(words[1..], sep)
  }

  function UnsupportedDetail(keywords: seq<string>): string {
    if keywords == [] then "intent classified unknown: nothing in the ticket matched a supported category"
    else "intent classified unknown: an ambiguous match on " + JoinWith(keywords, ", ")
  }

  function GaveUpDetail(reason: HandoffReason): string {
    "the model ended the run itself, giving " + ReasonName(reason)
  }

  function CapDetail(max: int): string {
    "the loop reached MAX_ITERATIONS (" + (if max < 0 then "-" + Digits(-max) else Digits(max)) +
      ") without terminating"
  }

  function ToolDetail(inFlight: Option<string>, x: Exn): string {
    if inFlight.Some? && inFlight.value != "" then inFlight.value + ": " + x.message else x.message
  }

  function ViolationDetail(violations: seq<Violation>): string {
    "reply withheld -- unsourced literals: " +
    JoinWith(seq(|violations|, i requires 0 <= i < |violations| =>
      violations[i].literal + " (" + ClassName(violations[i].literalClass) + ")"), ", ")
  }

  // ---------------------------------------------------------------------------------
  // The run as a function of the world
  // ---------------------------------------------------------------------------------

  datatype Run = Run(outcome: Outcome, events: seq<Event>, history: seq<Observation>)

  /** One iteration: it ends the run, or adds an observation and goes on. */
  datatype Turn = Ended(events: seq<Event>, outcome: Outcome) | Went(events: seq<Event>, observed: Observation)

  /** The catch-all: the typed tool failures keep their reasons, anything else is a
      `TOOL_ERROR`. */
  function Caught(x: Exn, inFlight: Option<string>): Outcome {
    match x
    case UserNotFound(_) => HandedOffFor(USER_NOT_FOUND, ToolDetail(inFlight, x))
    case NoDataAvailable(_) => HandedOffFor(DATA_NOT_FOUND, ToolDetail(inFlight, x))
    case Raised(_, _, shown) => HandedOffFor(TOOL_ERROR, shown)
  }

  /** What a checked draft leads to. */
  function Verdict(reply: string, checked: GroundingResult): (turn: Turn)
    ensures turn.Ended?
  {
    var events := [GroundingChecked(checked.violations == [], |checked.literals|, checked.violations)];
    if checked.violations != []
    then Ended(events, HandedOffFor(UNGROUNDED_REPLY, ViolationDetail(checked.violations)))
    else Ended(events, RepliedWith(reply))
  }

  /** A draft: what the chosen template renders, and what becomes of it under the check. */
  function Ground(w: World, template: ReplyTemplate, history: seq<Observation>): (turn: Turn)
    ensures turn.Ended?
  {
    var facts := FromObservations(history);
    var renderer := w.resolve(template);
    if renderer.Failure? then Ended([], Caught(renderer.error, None))
    else
      var reply := renderer.value.render(facts);
      if reply.Failure? then Ended([], Caught(reply.error, None))
      else Verdict(reply.value, w.verify(reply.value, facts, renderer.value.safe))
  }

  /** A tool result together with its summary; a failure of either fails the call. */
  function RunTool(w: World, iteration: int, tool: string, args: Fields): Result<(ToolResult, Fields), Exn> {
    var result :- w.tool(iteration, tool, args);
    var summary :- Summarise(result);
    Success((result, summary))
  }

  /** What one tool call records. */
  function CallEvents(iteration: int, tool: string, args: Fields,
                      called: Result<(ToolResult, Fields), Exn>): seq<Event> {
    [LLMDecision(iteration, CallTool, Some(tool)), ToolCalled(tool, args),
     if called.Success? then ToolReturned(tool, true, Some(called.value.1), None)
     else ToolReturned(tool, false, None, Some(AsToolError(called.error)))]
  }

  function TakeTurn(w: World, iteration: int, history: seq<Observation>): Turn {
    match w.decide(iteration, history)
    case Failure(x) => Ended([], Caught(x, None))
    case Success(ToolCall(tool, args)) =>
      var called := RunTool(w, iteration, tool, args);
      var events := CallEvents(iteration, tool, args, called);
      if called.Failure? then Ended(events, Caught(called.error, Some(tool)))
      else Went(events, Observation(tool, args, called.value.0))
    case Success(Reply(template)) =>
      var checked := Ground(w, template, history);
      Ended([LLMDecision(iteration, DoReply, None)] + checked.events, checked.outcome)
    case Success(Handoff(reason)) =>
      Ended([LLMDecision(iteration, GiveUp, None)], HandedOffFor(reason, GaveUpDetail(reason)))
  }

  function After(events: seq<Event>, run: Run): Run { run.(events := events + run.events) }

  function Loop(w: World, iteration: int, max: int, history: seq<Observation>): Run
    decreases if iteration <= max then max - iteration + 1 else 0
  {
    if iteration > max then Run(HandedOffFor(ITERATION_CAP_EXCEEDED, CapDetail(max)), [], history)
    else
      match TakeTurn(w, iteration, history)
      case Ended(events, outcome) => Run(outcome, events, history)
      case Went(events, observed) => After(events, Loop(w, iteration + 1, max, history + [observed]))
  }

  function Decide(w: World, max: int): Run {
    match w.classify
    case Failure(x) => Run(Caught(x, None), [], [])
    case Success(c) =>
      var classified := [IntentClassified(c.intent, c.keywords)];
      if c.intent == UnknownIntent
      then Run(HandedOffFor(UNSUPPORTED_INTENT, UnsupportedDetail(c.keywords)), classified, [])
      else After(classified, Loop(w, 1, max, []))
  }

  function Final(outcome: Outcome): Event { FinalDecision(outcome.status, outcome.reason, outcome.detail) }

  /** The complete trace of a run. */
  function TraceOf(w: World, max: int): seq<Event> {
    Decide(w, max).events + [Final(Decide(w, max).outcome)]
  }

  // ---------------------------------------------------------------------------------
  // The run as the loop that records it
  // ---------------------------------------------------------------------------------

  /** Adds an event that is coherent, so construction cannot fail. */
  method Note(trace: TraceRecorder, event: Event)
    requires trace.Valid() && event.Coherent()
    modifies trace, trace.clock
    ensures trace.Valid() && trace.clock.next == old(trace.clock.next) + trace.clock.tick
    ensures trace.steps == old(trace.steps) +
            Stamp([event], |old(trace.steps)|, old(trace.clock.next), trace.clock.tick)
  {
    var raised := trace.Record(event);
    assert !raised;
  }

  /** The recorder holds what it held at the start and then `events`, numbered and timed. */
  ghost predicate Recorded(trace: TraceRecorder, before: seq<TraceStep>, start: int, events: seq<Event>)
    reads trace, trace.clock
  {
    trace.Valid() &&
    trace.steps == before + Stamp(events, |before|, start, trace.clock.tick) &&
    trace.clock.next == start + |events| * trace.clock.tick
  }

  method Add(trace: TraceRecorder, event: Event, ghost before: seq<TraceStep>, ghost start: int,
             ghost events: seq<Event>)
    requires Recorded(trace, before, start, events) && event.Coherent()
    modifies trace, trace.clock
    ensures Recorded(trace, before, start, events + [event])
  {
    Note(trace, event);
    StampAppend(events, [event], |before|, start, trace.clock.tick);
    assert (|events| + 1) * trace.clock.tick == |events| * trace.clock.tick + trace.clock.tick;
  }

  method GroundReply(w: World, template: ReplyTemplate, history: seq<Observation>, trace: TraceRecorder,
                     ghost before: seq<TraceStep>, ghost start: int, ghost events: seq<Event>) returns (turn: Turn)
    requires Recorded(trace, before, start, events)
    modifies trace, trace.clock
    ensures turn == Ground(w, template, history)
    ensures Recorded(trace, before, start, events + turn.events)
  {
    var facts := Collect(history);
    assert events + [] == events;
    match w.resolve(template)
    case Failure(x) => turn := Ended([], Caught(x, None));
    case Success(renderer) =>
      match renderer.render(facts)
      case Failure(x) => turn := Ended([], Caught(x, None));
      case Success(reply) =>
        var checked := w.verify(reply, facts, renderer.safe);
        Add(trace, GroundingChecked(checked.violations == [], |checked.literals|, checked.violations), before, start,
          events);
        turn := Verdict(reply, checked);
  }

  /** The guarded region around a tool: call it, summarise, and record either way. */
  method CallAndRecord(w: World, iteration: int, tool: string, args: Fields, trace: TraceRecorder,
                       ghost before: seq<TraceStep>, ghost start: int, ghost events: seq<Event>)
    returns (called: Result<(ToolResult, Fields), Exn>)
    requires Recorded(trace, before, start, events) && iteration >= 1
    modifies trace, trace.clock
    ensures called == RunTool(w, iteration, tool, args)
    ensures Recorded(trace, before, start, events + CallEvents(iteration, tool, args, called))
  {
    var decided := LLMDecision(iteration, CallTool, Some(tool));
    Add(trace, decided, before, start, events);
    var asked := ToolCalled(tool, args);
    Add(trace, asked, before, start, events + [decided]);
    called := RunTool(w, iteration, tool, args);
    var returned := if called.Success? then ToolReturned(tool, true, Some(called.value.1), None)
                    else ToolReturned(tool, false, None, Some(AsToolError(called.error)));
    Add(trace, returned, before, start, events + [decided] + [asked]);
    assert events + [decided] + [asked] + [returned] == events + CallEvents(iteration, tool, args, called);
  }

  /** The body of the loop. */
  method Iterate(w: World, iteration: int, history: seq<Observation>, trace: TraceRecorder,
                 ghost before: seq<TraceStep>, ghost start: int, ghost events: seq<Event>) returns (turn: Turn)
    requires Recorded(trace, before, start, events) && iteration >= 1
    modifies trace, trace.clock
    ensures turn == TakeTurn(w, iteration, history)
    ensures Recorded(trace, before, start, events + turn.events)
  {
    var inFlight: Option<string> := None;
    match w.decide(iteration, history)
    case Failure(x) =>
      assert events + [] == events;
      turn := Ended([], Caught(x, inFlight));
    case Success(ToolCall(tool, args)) =>
      inFlight := Some(tool);
      var called := CallAndRecord(w, iteration, tool, args, trace, before, start, events);
      var recorded := CallEvents(iteration, tool, args, called);
      if called.Failure? {
        turn := Ended(recorded, Caught(called.error, inFlight));
      } else {
        inFlight := None;
        turn := Went(recorded, Observation(tool, args, called.value.0));
      }
    case Success(Reply(template)) =>
      var decision := LLMDecision(iteration, DoReply, None);
      Add(trace, decision, before, start, events);
      var checked := GroundReply(w, template, history, trace, before, start, events + [decision]);
      turn := Ended([decision] + checked.events, checked.outcome);
      assert events + turn.events == (events + [decision]) + checked.events;
    case Success(Handoff(reason)) =>
      var decision := LLMDecision(iteration, GiveUp, None);
      Add(trace, decision, before, start, events);
      turn := Ended([decision], HandedOffFor(reason, GaveUpDetail(reason)));
  }

  lemma LoopTurn(w: World, iteration: int, max: int, history: seq<Observation>, turn: Turn)
    requires iteration <= max && turn == TakeTurn(w, iteration, history)
    ensures var run := Loop(w, iteration, max, history);
            if turn.Ended? then run == Run(turn.outcome, turn.events, history)
            else run == After(turn.events, Loop(w, iteration + 1, max, history + [turn.observed]))
  {
  }

  lemma Regroup<T>(a: seq<T>, b: seq<T>, c: seq<T>)
    ensures a + (b + c) == (a + b) + c
  {
  }

  /** The bounded loop. */
  method RunLoop(w: World, max: int, trace: TraceRecorder,
                 ghost before: seq<TraceStep>, ghost start: int, ghost events0: seq<Event>) returns (outcome: Outcome)
    requires Recorded(trace, before, start, events0)
    modifies trace, trace.clock
    ensures outcome == Loop(w, 1, max, []).outcome
    ensures Recorded(trace, before, start, events0 + Loop(w, 1, max, []).events)
  {
    var history: seq<Observation> := [];
    var iteration := 1;
    ghost var events := events0;
    ghost var whole := Loop(w, 1, max, []);
    ghost var rest := whole;
    while iteration <= max
      invariant iteration >= 1
      invariant Recorded(trace, before, start, events)
      invariant rest == Loop(w, iteration, max, history)
      invariant events0 + whole.events == events + rest.events && whole.outcome == rest.outcome
    {
      var turn := Iterate(w, iteration, history, trace, before, start, events);
      LoopTurn(w, iteration, max, history, turn);
      if turn.Ended? {
        return turn.outcome;
      }
      history := history + [turn.observed];
      iteration := iteration + 1;
      rest := Loop(w, iteration, max, history);
      Regroup(events, turn.events, rest.events);
      events := events + turn.events;
    }
    assert rest.events == [] && events + [] == events;
    outcome := HandedOffFor(ITERATION_CAP_EXCEEDED, CapDetail(max));
  }

  /** Classify, loop, ground, recording every step; the write is the caller's. */
  method DecideTicket(w: World, max: int, trace: TraceRecorder) returns (outcome: Outcome)
    requires trace.Valid()
    modifies trace, trace.clock
    ensures outcome == Decide(w, max).outcome
    ensures Recorded(trace, old(trace.steps), old(trace.clock.next), Decide(w, max).events)
  {
    ghost var before, start := trace.steps, trace.clock.next;
    match w.classify
    case Failure(x) => outcome := Caught(x, None);
    case Success(c) =>
      var classified := IntentClassified(c.intent, c.keywords);
      Add(trace, classified, before, start, []);
      assert [] + [classified] == [classified];
      if c.intent == UnknownIntent {
        outcome := HandedOffFor(UNSUPPORTED_INTENT, UnsupportedDetail(c.keywords));
      } else {
        outcome := RunLoop(w, max, trace, before, start, [classified]);
      }
  }

  // ---------------------------------------------------------------------------------
  // The pairing of status, reply and reason
  // ---------------------------------------------------------------------------------

  /** A reply and no reason, or a reason with its detail and no reply. */
  predicate Paired(o: Outcome) {
    match o.status
    case Processing => false
    case Replied => o.reply.Some? && o.reason.None? && o.detail.None?
    case HandedOff => o.reply.None? && o.reason.Some? && o.detail.Some?
  }

  lemma {:induction false} LoopPairs(w: World, i: int, max: int, history: seq<Observation>, run: Run)
    requires run == Loop(w, i, max, history)
    ensures Paired(run.outcome)
    decreases if i <= max then max - i + 1 else 0
  {
    if i > max {
    } else {
      var turn := TakeTurn(w, i, history);
      LoopTurn(w, i, max, history, turn);
      if turn.Went? {
        LoopPairs(w, i + 1, max, history + [turn.observed], Loop(w, i + 1, max, history + [turn.observed]));
      }
    }
  }

  /** No run ends with anything else. */
  lemma OutcomesArePaired(w: World, max: int)
    ensures Paired(Decide(w, max).outcome)
  {
    if w.classify.Success? && w.classify.value.intent != UnknownIntent {
      LoopPairs(w, 1, max, [], Loop(w, 1, max, []));
    }
  }
}

/**
 The grammar of traces: an automaton that accepts every trace a run can leave behind, and, as
 long as the checker may say anything, no other; and what follows for every trace. What the
 real checker narrows this to is in `GenuineTraces`.
 */
module TraceGrammar {
  import opened Wrappers
  import opened Domain
  import opened Grounding
  import opened Trace
  import opened Orchestrator

  // ---------------------------------------------------------------------------------
  // The automaton
  // ---------------------------------------------------------------------------------

  /** Where a trace has got to; `rounds` counts the completed tool rounds. */
  datatype Phase =
    | Fresh
    | Refused(keywords: seq<string>)
    | Ready(rounds: nat)
    | Called(rounds: nat, tool: string)
    | Running(rounds: nat, tool: string)
    | Broken(rounds: nat, tool: string, error: ToolError)
    | Drafted(rounds: nat)
    | Judged(rounds: nat, violations: seq<Violation>)
    | GivenUp(rounds: nat)
    | Closed
    | Stuck

  ghost predicate Summarisable(summary: Fields) {
    exists result :: Summarise(result) == Success(summary)
  }

  /** A final decision the catch-all makes of an exception with nothing in flight. */
  predicate IsCrash(e: Event) {
    e.FinalDecision? && e.outcome == HandedOff && e.detail.Some? &&
    (e.reason == Some(USER_NOT_FOUND) || e.reason == Some(DATA_NOT_FOUND) || e.reason == Some(TOOL_ERROR))
  }

  /** A final decision the catch-all makes of the failure a tool step recorded. */
  predicate ExplainsFailure(e: Event, tool: string, error: ToolError) {
    e.FinalDecision? && e.outcome == HandedOff && e.reason.Some? &&
    match e.reason.value
    case USER_NOT_FOUND =>
      error.kind == "UserNotFound" && e.detail == Some(ToolDetail(Some(tool), UserNotFound(error.message)))
    case DATA_NOT_FOUND =>
      error.kind == "NoDataAvailable" && e.detail == Some(ToolDetail(Some(tool), NoDataAvailable(error.message)))
    case TOOL_ERROR => e.detail.Some?
    case _ => false
  }

  ghost function Next(phase: Phase, e: Event, max: int): Phase {
    match phase
    case Fresh =>
      if e.IntentClassified? then (if e.intent == UnknownIntent then Refused(e.keywords) else Ready(0))
      else if IsCrash(e) then Closed else Stuck
    case Refused(keywords) =>
      if e == Final(HandedOffFor(UNSUPPORTED_INTENT, UnsupportedDetail(keywords))) then Closed else Stuck
    case Ready(k) =>
      if k >= max then
        (if e == Final(HandedOffFor(ITERATION_CAP_EXCEEDED, CapDetail(max))) then Closed else Stuck)
      else if e.LLMDecision? && e.iteration == k + 1 then
        (match e.decision
         case CallTool => if e.tool.Some? then Called(k, e.tool.value) else Stuck
         case DoReply => if e.tool.None? then Drafted(k) else Stuck
         case GiveUp => if e.tool.None? then GivenUp(k) else Stuck)
      else if IsCrash(e) then Closed else Stuck
    case Called(k, tool) =>
      if e.ToolCalled? && e.name == tool then Running(k, tool) else Stuck
    case Running(k, tool) =>
      if !e.ToolReturned? || e.name != tool then Stuck
      else if e.ok && e.summary.Some? && e.error.None? && Summarisable(e.summary.value) then Ready(k + 1)
      else if !e.ok && e.summary.None? && e.error.Some? then Broken(k, tool, e.error.value)
      else Stuck
    case Broken(_, tool, error) => if ExplainsFailure(e, tool, error) then Closed else Stuck
    case Drafted(k) =>
      if e.GroundingChecked? && e.literalsChecked >= 0 && e.passed == (e.violations == []) then Judged(k, e.violations)
      else if IsCrash(e) then Closed else Stuck
    case Judged(_, violations) =>
      if violations == [] then (if e == FinalDecision(Replied, None, None) then Closed else Stuck)
      else if e == Final(HandedOffFor(UNGROUNDED_REPLY, ViolationDetail(violations))) then Closed else Stuck
    case GivenUp(_) =>
      if e.FinalDecision? && e.reason.Some? && e == Final(HandedOffFor(e.reason.value, GaveUpDetail(e.reason.value)))
      then Closed else Stuck
    case Closed => Stuck
    case Stuck => Stuck
  }

  ghost function Walk(phase: Phase, events: seq<Event>, max: int): Phase
    decreases |events|
  {
    if events == [] then phase else Walk(Next(phase, events[0], max), events[1..], max)
  }

  ghost predicate Accepts(events: seq<Event>, max: int) { Walk(Fresh, events, max) == Closed }

  // ---------------------------------------------------------------------------------
  // Every run is accepted
  // ---------------------------------------------------------------------------------

  lemma {:induction false} WalkConcat(phase: Phase, a: seq<Event>, b: seq<Event>, max: int)
    ensures Walk(phase, a + b, max) == Walk(Walk(phase, a, max), b, max)
    decreases |a|
  {
    if a == [] {
      assert a + b == b;
    } else {
      assert (a + b)[1..] == a[1..] + b;
      WalkConcat(Next(phase, a[0], max), a[1..], b, max);
    }
  }

  lemma Walk1(phase: Phase, e: Event, max: int)
    ensures Walk(phase, [e], max) == Next(phase, e, max)
  {
    assert [e][1..] == [];
  }

  lemma Walk2(phase: Phase, e: Event, f: Event, max: int)
    ensures Walk(phase, [e, f], max) == Next(Next(phase, e, max), f, max)
  {
    assert [e, f][1..] == [f];
    Walk1(Next(phase, e, max), f, max);
  }

  lemma Walk3(phase: Phase, e: Event, f: Event, g: Event, max: int)
    ensures Walk(phase, [e, f, g], max) == Next(Next(Next(phase, e, max), f, max), g, max)
  {
    assert [e, f, g][1..] == [f, g];
    Walk2(Next(phase, e, max), f, g, max);
  }

  lemma CaughtIsCrash(x: Exn)
    ensures IsCrash(Final(Caught(x, None)))
  {
  }

  lemma ReplyTurn(w: World, k: nat, max: int, template: ReplyTemplate, history: seq<Observation>)
    requires k < max
    ensures var turn := Ground(w, template, history);
            turn.Ended? && Walk(Drafted(k), turn.events + [Final(turn.outcome)], max) == Closed
  {
    var turn := Ground(w, template, history);
    if turn.events == [] {
      assert turn.events + [Final(turn.outcome)] == [Final(turn.outcome)];
      Walk1(Drafted(k), Final(turn.outcome), max);
    } else {
      assert turn.events + [Final(turn.outcome)] == [turn.events[0], Final(turn.outcome)];
      Walk2(Drafted(k), turn.events[0], Final(turn.outcome), max);
    }
  }

  lemma CallTurn(w: World, k: nat, max: int, tool: string, args: Fields)
    requires k < max
    ensures var called := RunTool(w, k + 1, tool, args);
            Walk(Ready(k), CallEvents(k + 1, tool, args, called), max) ==
            if called.Success? then Ready(k + 1) else Broken(k, tool, AsToolError(called.error))
  {
    var called := RunTool(w, k + 1, tool, args);
    var e := CallEvents(k + 1, tool, args, called);
    Walk3(Ready(k), e[0], e[1], e[2], max);
    assert e == [e[0], e[1], e[2]];
    if called.Success? {
      assert Summarise(called.value.0) == Success(called.value.1);
    }
  }

  /** What one turn of the loop does to the automaton. */
  ghost predicate TurnFits(turn: Turn, k: nat, max: int) {
    if turn.Went? then Walk(Ready(k), turn.events, max) == Ready(k + 1)
    else Walk(Ready(k), turn.events + [Final(turn.outcome)], max) == Closed
  }

  lemma ShortTurn(turn: Turn, k: nat, max: int)
    requires k < max && turn.Ended?
    requires (turn.events == [] && IsCrash(Final(turn.outcome))) ||
             exists reason :: turn ==
               Ended([LLMDecision(k + 1, GiveUp, None)], HandedOffFor(reason, GaveUpDetail(reason)))
    ensures TurnFits(turn, k, max)
  {
    var last := Final(turn.outcome);
    if turn.events == [] {
      assert turn.events + [last] == [last];
      Walk1(Ready(k), last, max);
    } else {
      assert turn.events + [last] == [turn.events[0], last];
      Walk2(Ready(k), turn.events[0], last, max);
    }
  }

  lemma FailedCallTurn(turn: Turn, k: nat, max: int, tool: string, x: Exn)
    requires turn.Ended? && turn.outcome == Caught(x, Some(tool))
    requires Walk(Ready(k), turn.events, max) == Broken(k, tool, AsToolError(x))
    ensures TurnFits(turn, k, max)
  {
    WalkConcat(Ready(k), turn.events, [Final(turn.outcome)], max);
    Walk1(Broken(k, tool, AsToolError(x)), Final(turn.outcome), max);
  }

  lemma WalkFirst(phase: Phase, e: Event, rest: seq<Event>, max: int)
    ensures Walk(phase, [e] + rest, max) == Walk(Next(phase, e, max), rest, max)
  {
    assert ([e] + rest)[1..] == rest;
  }

  lemma DraftTurn(turn: Turn, checked: Turn, k: nat, max: int)
    requires k < max && checked.Ended?
    requires turn == Ended([LLMDecision(k + 1, DoReply, None)] + checked.events, checked.outcome)
    requires Walk(Drafted(k), checked.events + [Final(checked.outcome)], max) == Closed
    ensures TurnFits(turn, k, max)
  {
    var decision := LLMDecision(k + 1, DoReply, None);
    Regroup([decision], checked.events, [Final(turn.outcome)]);
    WalkFirst(Ready(k), decision, checked.events + [Final(turn.outcome)], max);
  }

  lemma TurnWalks(w: World, k: nat, max: int, history: seq<Observation>)
    requires k < max
    ensures TurnFits(TakeTurn(w, k + 1, history), k, max)
  {
    var turn := TakeTurn(w, k + 1, history);
    match w.decide(k + 1, history)
    case Failure(x) =>
      CaughtIsCrash(x);
      ShortTurn(turn, k, max);
    case Success(ToolCall(tool, args)) =>
      CallTurn(w, k, max, tool, args);
      var called := RunTool(w, k + 1, tool, args);
      if called.Failure? { FailedCallTurn(turn, k, max, tool, called.error); }
    case Success(Reply(template)) =>
      ReplyTurn(w, k, max, template, history);
      DraftTurn(turn, Ground(w, template, history), k, max);
    case Success(Handoff(reason)) =>
      assert turn == Ended([LLMDecision(k + 1, GiveUp, None)], HandedOffFor(reason, GaveUpDetail(reason)));
      ShortTurn(turn, k, max);
  }

  lemma {:induction false} LoopWalks(w: World, k: nat, max: int, history: seq<Observation>)
    ensures var run := Loop(w, k + 1, max, history);
            Walk(Ready(k), run.events + [Final(run.outcome)], max) == Closed
    decreases if k < max then max - k else 0
  {
    var run := Loop(w, k + 1, max, history);
    if k >= max {
      assert run.events + [Final(run.outcome)] == [Final(run.outcome)];
      Walk1(Ready(k), Final(run.outcome), max);
    } else {
      TurnWalks(w, k, max, history);
      var turn := TakeTurn(w, k + 1, history);
      LoopTurn(w, k + 1, max, history, turn);
      if turn.Went? {
        var rest := Loop(w, k + 2, max, history + [turn.observed]);
        LoopWalks(w, k + 1, max, history + [turn.observed]);
        Regroup(turn.events, rest.events, [Final(run.outcome)]);
        WalkConcat(Ready(k), turn.events, rest.events + [Final(run.outcome)], max);
      }
    }
  }

  lemma ClassifiedWalk(first: Event, rest: seq<Event>, last: Event, max: int)
    requires first.IntentClassified? && first.intent != UnknownIntent
    requires Walk(Ready(0), rest + [last], max) == Closed
    ensures Accepts(([first] + rest) + [last], max)
  {
    Regroup([first], rest, [last]);
    WalkConcat(Fresh, [first], rest + [last], max);
    Walk1(Fresh, first, max);
  }

  lemma RefusedWalk(first: Event, last: Event, max: int)
    requires first.IntentClassified? && first.intent == UnknownIntent
    requires Next(Refused(first.keywords), last, max) == Closed
    ensures Accepts([first] + [last], max)
  {
    assert [first] + [last] == [first, last];
    Walk2(Fresh, first, last, max);
  }

  lemma CrashWalk(last: Event, max: int)
    requires IsCrash(last)
    ensures Accepts([] + [last], max)
  {
    assert [] + [last] == [last];
    Walk1(Fresh, last, max);
  }

  lemma ClassifiedRun(w: World, max: int, first: Event, run: Run)
    requires first.IntentClassified? && first.intent != UnknownIntent
    requires run == After([first], Loop(w, 1, max, []))
    ensures Accepts(run.events + [Final(run.outcome)], max)
  {
    var loop := Loop(w, 1, max, []);
    LoopWalks(w, 0, max, []);
    ClassifiedWalk(first, loop.events, Final(loop.outcome), max);
  }

  /** Whatever the model, the tools, the templates and the checker do, the trace of the run
      is in the grammar. */
  lemma EveryRunIsAccepted(w: World, max: int)
    ensures Accepts(TraceOf(w, max), max)
  {
    var run := Decide(w, max);
    match w.classify
    case Failure(x) =>
      CaughtIsCrash(x);
      CrashWalk(Final(Caught(x, None)), max);
    case Success(c) =>
      var first := IntentClassified(c.intent, c.keywords);
      if c.intent == UnknownIntent {
        RefusedWalk(first, Final(run.outcome), max);
      } else {
        ClassifiedRun(w, max, first, run);
      }
  }

  // ---------------------------------------------------------------------------------
  // What every accepted trace looks like
  // ---------------------------------------------------------------------------------

  lemma {:induction false} StuckStays(events: seq<Event>, max: int)
    ensures Walk(Stuck, events, max) == Stuck
    decreases |events|
  {
    if events == [] {
    } else {
      StuckStays(events[1..], max);
    }
  }

  /** An accepted rest opens with an event its phase allows. */
  lemma Advance(phase: Phase, events: seq<Event>, max: int)
    requires Walk(phase, events, max) == Closed && phase != Closed
    ensures events != []
    ensures var next := Next(phase, events[0], max);
            next != Stuck && Walk(next, events[1..], max) == Closed && (next == Closed ==> |events| == 1)
  {
    ClosedAfter(Next(phase, events[0], max), events[1..], max);
  }

  lemma ClosedAfter(next: Phase, rest: seq<Event>, max: int)
    requires Walk(next, rest, max) == Closed
    ensures next != Stuck && (next == Closed ==> rest == [])
  {
    if next == Stuck {
      StuckStays(rest, max);
    } else if next == Closed && rest != [] {
      StuckStays(rest[1..], max);
    }
  }

  /** A tool round of the trace, from its result backwards. */
  predicate RoundAt(events: seq<Event>, j: nat, iteration: int)
    requires j < |events| && events[j].ToolReturned?
  {
    j >= 2 && events[j - 1].ToolCalled? && events[j - 1].name == events[j].name &&
    events[j - 2] == LLMDecision(iteration, CallTool, Some(events[j].name))
  }

  /** The layout of a trace after `k` rounds: events[j] stands `j` places on. */
  ghost predicate LaidOut(events: seq<Event>, k: nat, max: int) {
    events != [] && |events| <= (if k >= max then 1 else 3 * (max - k) + 1) &&
    (forall j :: 0 <= j < |events| ==> (events[j].FinalDecision? <==> j == |events| - 1)) &&
    (forall j :: 0 <= j < |events| && events[j].LLMDecision? ==> j % 3 == 0 && events[j].iteration == k + j / 3 + 1) &&
    (forall j :: 0 <= j < |events| && events[j].ToolReturned? ==>
      j % 3 == 2 && RoundAt(events, j, k + j / 3 + 1) && (!events[j].ok ==> j == |events| - 2)) &&
    (forall j :: 0 <= j < |events| && events[j].GroundingChecked? ==> j == |events| - 2) &&
    (forall j :: 0 <= j < |events| ==> !events[j].IntentClassified?)
  }

  lemma LayFinal(events: seq<Event>, k: nat, max: int)
    requires events != [] && events[0].FinalDecision?
    requires Walk(Ready(k), events, max) == Closed
    ensures LaidOut(events, k, max)
  {
    Advance(Ready(k), events, max);
  }

  /** After a tool call decision come the call, its result, and either more or the end. */
  lemma LayRound(events: seq<Event>, k: nat, max: int, tool: string)
    requires k < max && events != [] && events[0] == LLMDecision(k + 1, CallTool, Some(tool))
    requires Walk(Ready(k), events, max) == Closed
    ensures |events| >= 4 && events[1].ToolCalled? && events[1].name == tool
    ensures events[2].ToolReturned? && events[2].name == tool
    ensures if events[2].ok then Walk(Ready(k + 1), events[3..], max) == Closed
            else |events| == 4 && events[3].FinalDecision?
  {
    Advance(Ready(k), events, max);
    var e1 := events[1..];
    Advance(Called(k, tool), e1, max);
    var e2 := e1[1..];
    Advance(Running(k, tool), e2, max);
    var e3 := e2[1..];
    assert e3 == events[3..];
    Advance(Next(Running(k, tool), e2[0], max), e3, max);
  }

  lemma AfterJudged(rest: seq<Event>, k: nat, violations: seq<Violation>, max: int)
    requires Walk(Judged(k, violations), rest, max) == Closed
    ensures |rest| == 1 && rest[0].FinalDecision?
  {
    Advance(Judged(k, violations), rest, max);
  }

  lemma AfterDrafted(rest: seq<Event>, k: nat, max: int)
    requires Walk(Drafted(k), rest, max) == Closed
    ensures (|rest| == 1 && rest[0].FinalDecision?) ||
            (|rest| == 2 && rest[0].GroundingChecked? && rest[1].FinalDecision?)
  {
    Advance(Drafted(k), rest, max);
    if !rest[0].FinalDecision? {
      AfterJudged(rest[1..], k, rest[0].violations, max);
    }
  }

  lemma DraftAllowed(k: nat, e: Event, max: int)
    requires k < max && e == LLMDecision(k + 1, DoReply, None)
    ensures Next(Ready(k), e, max) == Drafted(k)
  {
  }

  lemma LayDraft(events: seq<Event>, k: nat, max: int)
    requires k < max && events != [] && events[0] == LLMDecision(k + 1, DoReply, None)
    requires Walk(Ready(k), events, max) == Closed
    ensures (|events| == 2 && events[1].FinalDecision?) ||
            (|events| == 3 && events[1].GroundingChecked? && events[2].FinalDecision?)
  {
    var rest := events[1..];
    Advance(Ready(k), events, max);
    DraftAllowed(k, events[0], max);
    AfterDrafted(rest, k, max);
    assert |events| == |rest| + 1 && events[1] == rest[0] && (|rest| == 2 ==> events[2] == rest[1]);
  }

  lemma LayGiveUp(events: seq<Event>, k: nat, max: int)
    requires k < max && events != [] && events[0] == LLMDecision(k + 1, GiveUp, None)
    requires Walk(Ready(k), events, max) == Closed
    ensures |events| == 2 && events[1].FinalDecision?
  {
    Advance(Ready(k), events, max);
    var rest := events[1..];
    assert Next(Ready(k), events[0], max) == GivenUp(k);
    Advance(GivenUp(k), rest, max);
  }

  /** One round more in front of a laid-out rest. */
  lemma LaidOutRound(events: seq<Event>, k: nat, max: int)
    requires k < max && |events| >= 4
    requires events[0].LLMDecision? && events[1].ToolCalled? && events[2].ToolReturned?
    requires events[0] == LLMDecision(k + 1, CallTool, Some(events[2].name)) && events[1].name == events[2].name
    requires events[2].ok && LaidOut(events[3..], k + 1, max)
    ensures LaidOut(events, k, max)
  {
    var rest := events[3..];
    assert forall j :: 3 <= j < |events| ==> events[j] == rest[j - 3];
    forall j | 3 <= j < |events| && events[j].ToolReturned?
      ensures j % 3 == 2 && RoundAt(events, j, k + j / 3 + 1) && (!events[j].ok ==> j == |events| - 2)
    {
      assert rest[j - 3].ToolReturned? && RoundAt(rest, j - 3, (k + 1) + (j - 3) / 3 + 1);
      assert events[j - 1] == rest[j - 4] && events[j - 2] == rest[j - 5];
    }
  }

  lemma {:induction false} LayOut(events: seq<Event>, k: nat, max: int)
    requires Walk(Ready(k), events, max) == Closed
    ensures LaidOut(events, k, max)
    decreases |events|
  {
    Advance(Ready(k), events, max);
    var e := events[0];
    if e.FinalDecision? {
      LayFinal(events, k, max);
    } else if e.decision == CallTool {
      LayRound(events, k, max, e.tool.value);
      if events[2].ok {
        LayOut(events[3..], k + 1, max);
        LaidOutRound(events, k, max);
      }
    } else if e.decision == DoReply {
      LayDraft(events, k, max);
    } else {
      LayGiveUp(events, k, max);
    }
  }

  /** The classification first (unless the classifier raised, when the final decision stands
      alone); decisions numbered 1, 2, 3, ... at every third place; each tool result right
      after the call and the decision it answers, failed only if it is the last thing before
      the end; at most one grounding check, just before the end; one final decision, last; and
      no more than 3 * max + 2 steps. */
  ghost predicate Layout(events: seq<Event>, max: int) {
    events != [] && (max >= 0 ==> |events| <= 3 * max + 2) &&
    (events[0].IntentClassified? || |events| == 1) &&
    (forall j :: 0 < j < |events| ==> !events[j].IntentClassified?) &&
    (forall j :: 0 <= j < |events| ==> (events[j].FinalDecision? <==> j == |events| - 1)) &&
    (forall j :: 0 <= j < |events| && events[j].LLMDecision? ==> j % 3 == 1 && events[j].iteration == j / 3 + 1) &&
    (forall j :: 0 <= j < |events| && events[j].ToolReturned? ==>
      j % 3 == 0 && RoundAt(events, j, j / 3) && (!events[j].ok ==> j == |events| - 2)) &&
    (forall j :: 0 <= j < |events| && events[j].GroundingChecked? ==> j == |events| - 2)
  }

  lemma ClassifiedLayout(events: seq<Event>, rest: seq<Event>, max: int)
    requires events != [] && events[0].IntentClassified? && rest == events[1..] && LaidOut(rest, 0, max)
    ensures Layout(events, max)
  {
    assert forall j :: 1 <= j < |events| ==> events[j] == rest[j - 1];
    forall j | 1 <= j < |events| && events[j].ToolReturned?
      ensures j % 3 == 0 && RoundAt(events, j, j / 3) && (!events[j].ok ==> j == |events| - 2)
    {
      assert rest[j - 1].ToolReturned? && RoundAt(rest, j - 1, (j - 1) / 3 + 1);
      assert events[j - 1] == rest[j - 2] && events[j - 2] == rest[j - 3];
    }
  }

  /** Every accepted trace is laid out so. */
  lemma AcceptedLayout(events: seq<Event>, max: int)
    requires Accepts(events, max)
    ensures Layout(events, max)
  {
    Advance(Fresh, events, max);
    FreshAllows(events[0], max);
    if events[0].IntentClassified? {
      if events[0].intent == UnknownIntent {
        RefusedLayout(events, max);
      } else {
        LayOut(events[1..], 0, max);
        ClassifiedLayout(events, events[1..], max);
      }
    }
  }

  lemma FreshAllows(e: Event, max: int)
    requires Next(Fresh, e, max) != Stuck
    ensures e.IntentClassified? || (e.FinalDecision? && Next(Fresh, e, max) == Closed)
    ensures e.IntentClassified? ==>
              Next(Fresh, e, max) == if e.intent == UnknownIntent then Refused(e.keywords) else Ready(0)
  {
  }

  lemma RefusedLayout(events: seq<Event>, max: int)
    requires events != [] && events[0].IntentClassified?
    requires Walk(Refused(events[0].keywords), events[1..], max) == Closed
    ensures Layout(events, max)
  {
    RefusedEnds(events[0].keywords, events[1..], max);
    assert |events| == 2 && events[1] == events[1..][0];
  }

  lemma RefusedEnds(keywords: seq<string>, rest: seq<Event>, max: int)
    requires Walk(Refused(keywords), rest, max) == Closed
    ensures |rest| == 1 && rest[0].FinalDecision?
  {
    Advance(Refused(keywords), rest, max);
  }

  // ---------------------------------------------------------------------------------
  // The grammar is exact: every accepted trace is the trace of some run
  // ---------------------------------------------------------------------------------

  /** An exception the catch-all turns into the crash `e`. */
  function CrashOf(e: Event): (x: Exn)
    requires IsCrash(e)
    ensures Final(Caught(x, None)) == e
  {
    if e.reason == Some(USER_NOT_FOUND) then UserNotFound(e.detail.value)
    else if e.reason == Some(DATA_NOT_FOUND) then NoDataAvailable(e.detail.value)
    else Raised("", "", e.detail.value)
  }

  /** An exception that leaves the failed tool step `error` and the final decision `e`. */
  function FailureOf(e: Event, tool: string, error: ToolError): (x: Exn)
    requires ExplainsFailure(e, tool, error)
    ensures Final(Caught(x, Some(tool))) == e && AsToolError(x) == error
  {
    if e.reason == Some(USER_NOT_FOUND) then UserNotFound(error.message)
    else if e.reason == Some(DATA_NOT_FOUND) then NoDataAvailable(error.message)
    else Raised(error.kind, error.message, e.detail.value)
  }

  ghost function ResultOf(summary: Fields): (result: ToolResult)
    requires Summarisable(summary)
    ensures Summarise(result) == Success(summary)
  {
    var result :| Summarise(result) == Success(summary);
    result
  }

  /** A model that decides as the trace says, seen from iteration `i` on: `events[0]` is the
      step the decision led to. */
  ghost function ScriptedStep(events: seq<Event>): Result<Step, Exn> {
    if events == [] then Failure(Raised("", "", ""))
    else if events[0].LLMDecision? then
      match events[0].decision
      case CallTool =>
        Success(ToolCall(if events[0].tool.Some? then events[0].tool.value else "",
                         if |events| > 1 && events[1].ToolCalled? then events[1].args else map[]))
      case DoReply => Success(Reply(BillingAllPaid))
      case GiveUp =>
        Success(Handoff(if |events| > 1 && events[1].FinalDecision? &&
          events[1].reason.Some? then events[1].reason.value else TOOL_ERROR))
    else if IsCrash(events[0]) then Failure(CrashOf(events[0]))
    else Failure(Raised("", "", ""))
  }

  ghost function ScriptedResult(events: seq<Event>): Result<ToolResult, Exn> {
    if |events| > 2 && events[2].ToolReturned? then
      if events[2].ok && events[2].summary.Some? &&
        Summarisable(events[2].summary.value) then Success(ResultOf(events[2].summary.value))
      else if |events| > 3 && events[2].error.Some? && ExplainsFailure(events[3], events[2].name, events[2].error.value)
      then Failure(FailureOf(events[3], events[2].name, events[2].error.value))
      else Failure(Raised("", "", ""))
    else Failure(Raised("", "", ""))
  }

  function From(events: seq<Event>, i: int): seq<Event> {
    if 0 <= i <= |events| then events[i..] else []
  }

  /** The part of the trace iteration `i` writes, and what follows. */
  function AtIteration(events: seq<Event>, i: int): seq<Event> { From(events, 3 * i - 2) }

  /** Whether rendering fails, and what the checker says, if the trace gets that far. */
  ghost function ScriptedRenderer(events: seq<Event>): Result<Renderer, Exn> {
    if |events| >= 2 && events[|events| - 2].LLMDecision? && IsCrash(events[|events| - 1])
    then Failure(CrashOf(events[|events| - 1]))
    else Success(Renderer(facts => Success(""), {}))
  }

  ghost function ScriptedVerdict(events: seq<Event>): GroundingResult {
    if |events| >= 2 && events[|events| - 2].GroundingChecked? && events[|events| - 2].literalsChecked >= 0 then
      var e := events[|events| - 2];
      GroundingResult(seq(e.literalsChecked, _ => Literal("", NumberClass)), e.violations)
    else GroundingResult([], [])
  }

  ghost function Scripted(events: seq<Event>): World {
    World(
      if events != [] && events[0].IntentClassified? then Success(Classification(events[0].intent, events[0].keywords))
      else if events != [] && IsCrash(events[0]) then Failure(CrashOf(events[0]))
      else Failure(Raised("", "", "")),
      (i, history) => ScriptedStep(AtIteration(events, i)),
      (i, tool, args) => ScriptedResult(AtIteration(events, i)),
      template => ScriptedRenderer(events),
      (reply, facts, safe) => ScriptedVerdict(events))
  }

  /** After `k` rounds the rest of the trace is still to be read. */
  ghost predicate StandsAt(whole: seq<Event>, k: nat, max: int) {
    3 * k + 1 <= |whole| && Walk(Ready(k), whole[3 * k + 1..], max) == Closed
  }

  /** The turn after `k` rounds writes its part of the trace. */
  ghost predicate TurnReplays(turn: Turn, whole: seq<Event>, k: nat, max: int) {
    3 * k + 1 <= |whole| &&
    if turn.Went? then StandsAt(whole, k + 1, max) && turn.events == whole[3 * k + 1..3 * k + 4]
    else turn.events + [Final(turn.outcome)] == whole[3 * k + 1..]
  }

  lemma RoundFits(turn: Turn, whole: seq<Event>, rest: seq<Event>, k: nat, max: int)
    requires 3 * k + 1 <= |whole| && rest == whole[3 * k + 1..] && |rest| >= 4 && turn.events == rest[..3]
    requires if turn.Went? then Walk(Ready(k + 1), rest[3..], max) == Closed
             else |rest| == 4 && Final(turn.outcome) == rest[3]
    ensures TurnReplays(turn, whole, k, max)
  {
    assert rest[3..] == whole[3 * (k + 1) + 1..] && rest[..3] == whole[3 * k + 1..3 * k + 4];
    if turn.Ended? { assert rest == rest[..3] + [rest[3]]; }
  }

  lemma ScriptedRound(whole: seq<Event>, k: nat, max: int, history: seq<Observation>)
    requires k < max && 3 * k + 1 <= |whole| && Walk(Ready(k), whole[3 * k + 1..], max) == Closed
    requires whole[3 * k + 1..] != [] && whole[3 * k + 1..][0].LLMDecision? &&
             whole[3 * k + 1..][0].decision == CallTool
    ensures TurnReplays(TakeTurn(Scripted(whole), k + 1, history), whole, k, max)
  {
    ReplayRound(whole, k, max, history);
    RoundFits(TakeTurn(Scripted(whole), k + 1, history), whole, whole[3 * k + 1..], k, max);
  }

  lemma ScriptedTurn(whole: seq<Event>, k: nat, max: int, history: seq<Observation>)
    requires k < max && 3 * k + 1 <= |whole| && Walk(Ready(k), whole[3 * k + 1..], max) == Closed
    ensures TurnReplays(TakeTurn(Scripted(whole), k + 1, history), whole, k, max)
  {
    var rest := whole[3 * k + 1..];
    Advance(Ready(k), rest, max);
    if rest[0].LLMDecision? && rest[0].decision == CallTool {
      ScriptedRound(whole, k, max, history);
    } else {
      ScriptedStop(whole, k, max, history);
    }
  }

  lemma ScriptedStop(whole: seq<Event>, k: nat, max: int, history: seq<Observation>)
    requires k < max && 3 * k + 1 <= |whole| && Walk(Ready(k), whole[3 * k + 1..], max) == Closed
    requires var rest := whole[3 * k + 1..];
             rest != [] && !(rest[0].LLMDecision? && rest[0].decision == CallTool)
    ensures TurnReplays(TakeTurn(Scripted(whole), k + 1, history), whole, k, max)
  {
    var rest := whole[3 * k + 1..];
    Advance(Ready(k), rest, max);
    if rest[0].FinalDecision? {
      ReplayCrash(whole, k, max, history);
    } else if rest[0].decision == DoReply {
      ReplayDraft(whole, k, max, history);
    } else {
      ReplayGiveUp(whole, k, max, history);
    }
  }

  /** The loop after `k` rounds writes the rest of the trace. */
  ghost predicate Rewrites(run: Run, whole: seq<Event>, k: nat)
    requires 3 * k + 1 <= |whole|
  {
    run.events + [Final(run.outcome)] == whole[3 * k + 1..]
  }

  lemma RewriteMore(run: Run, more: Run, events: seq<Event>, whole: seq<Event>, k: nat)
    requires 3 * (k + 1) + 1 <= |whole| && events == whole[3 * k + 1..3 * k + 4]
    requires run == After(events, more) && Rewrites(more, whole, k + 1)
    ensures Rewrites(run, whole, k)
  {
    Regroup(events, more.events, [Final(more.outcome)]);
    assert whole[3 * k + 1..] == whole[3 * k + 1..3 * k + 4] + whole[3 * (k + 1) + 1..];
  }

  /** The turn after `k` rounds writes its part of the trace, and `at` holds of the rest. */
  ghost predicate Steps(turn: Turn, whole: seq<Event>, at: nat -> bool, k: nat) {
    3 * k + 1 <= |whole| &&
    if turn.Went? then at(k + 1) && 3 * k + 4 <= |whole| && turn.events == whole[3 * k + 1..3 * k + 4]
    else turn.events + [Final(turn.outcome)] == whole[3 * k + 1..]
  }

  ghost predicate CapEnds(whole: seq<Event>, k: nat, max: int) {
    3 * k + 1 <= |whole| && whole[3 * k + 1..] == [Final(HandedOffFor(ITERATION_CAP_EXCEEDED, CapDetail(max)))]
  }

  /** Whatever was observed in the first `k` rounds, the next turn writes its part. */
  ghost predicate StepsOn(w: World, whole: seq<Event>, at: nat -> bool, k: nat, i: nat) {
    forall history :: Steps(TakeTurn(w, i, history), whole, at, k)
  }

  /** Every turn of `w` from where `at` holds writes its part of the trace, and past the cap
      only the cap's decision is left. */
  ghost predicate Replays(w: World, whole: seq<Event>, at: nat -> bool, max: int) {
    forall k: nat :: at(k) ==> if k < max then StepsOn(w, whole, at, k, k + 1) else CapEnds(whole, k, max)
  }

  lemma RewriteEnd(run: Run, turn: Turn, whole: seq<Event>, at: nat -> bool, k: nat)
    requires turn.Ended? && Steps(turn, whole, at, k) && run.events == turn.events && run.outcome == turn.outcome
    ensures Rewrites(run, whole, k)
  {
  }

  lemma RewriteCap(run: Run, whole: seq<Event>, k: nat, max: int)
    requires CapEnds(whole, k, max) && run.events == [] &&
             run.outcome == HandedOffFor(ITERATION_CAP_EXCEEDED, CapDetail(max))
    ensures Rewrites(run, whole, k)
  {
    assert [] + [Final(run.outcome)] == [Final(run.outcome)];
  }

  lemma {:induction false} LoopReplays(w: World, whole: seq<Event>, at: nat -> bool, k: nat, max: int,
                                       history: seq<Observation>, run: Run)
    requires Replays(w, whole, at, max) && at(k) && run == Loop(w, k + 1, max, history)
    ensures 3 * k + 1 <= |whole| && Rewrites(run, whole, k)
    decreases |whole| - 3 * k
  {
    if k >= max {
      RewriteCap(run, whole, k, max);
    } else {
      var turn := TakeTurn(w, k + 1, history);
      LoopTurn(w, k + 1, max, history, turn);
      assert Steps(turn, whole, at, k);
      if turn.Went? {
        var more := Loop(w, k + 2, max, history + [turn.observed]);
        LoopReplays(w, whole, at, k + 1, max, history + [turn.observed], more);
        RewriteMore(run, more, turn.events, whole, k);
      } else {
        RewriteEnd(run, turn, whole, at, k);
      }
    }
  }

  ghost function Standing(whole: seq<Event>, max: int): nat -> bool { (k: nat) => StandsAt(whole, k, max) }

  lemma ScriptedSteps(whole: seq<Event>, k: nat, max: int, history: seq<Observation>, turn: Turn)
    requires k < max && StandsAt(whole, k, max) && turn == TakeTurn(Scripted(whole), k + 1, history)
    ensures Steps(turn, whole, Standing(whole, max), k)
  {
    ScriptedTurn(whole, k, max, history);
    ReplayedSteps(whole, k, max, turn);
  }

  lemma ReplayedSteps(whole: seq<Event>, k: nat, max: int, turn: Turn)
    requires TurnReplays(turn, whole, k, max)
    ensures Steps(turn, whole, Standing(whole, max), k)
  {
  }

  lemma CapIsLast(whole: seq<Event>, k: nat, max: int)
    requires k >= max && StandsAt(whole, k, max)
    ensures CapEnds(whole, k, max)
  {
    Advance(Ready(k), whole[3 * k + 1..], max);
  }

  lemma ScriptedStepsOn(whole: seq<Event>, k: nat, max: int)
    requires k < max && StandsAt(whole, k, max)
    ensures StepsOn(Scripted(whole), whole, Standing(whole, max), k, k + 1)
  {
    var w, at, i := Scripted(whole), Standing(whole, max), k + 1;
    forall history ensures Steps(TakeTurn(w, i, history), whole, at, k) {
      ScriptedSteps(whole, k, max, history, TakeTurn(w, i, history));
    }
  }

  lemma ScriptedReplays(whole: seq<Event>, max: int)
    ensures Replays(Scripted(whole), whole, Standing(whole, max), max)
  {
    var at := Standing(whole, max);
    forall k: nat | at(k)
      ensures if k < max then StepsOn(Scripted(whole), whole, at, k, k + 1) else CapEnds(whole, k, max)
    {
      if k < max {
        ScriptedStepsOn(whole, k, max);
      } else {
        CapIsLast(whole, k, max);
      }
    }
  }

  lemma ReplayCrash(whole: seq<Event>, k: nat, max: int, history: seq<Observation>)
    requires k < max && 3 * k + 1 <= |whole| && Walk(Ready(k), whole[3 * k + 1..], max) == Closed
    requires whole[3 * k + 1..] != [] && whole[3 * k + 1..][0].FinalDecision?
    ensures var turn := TakeTurn(Scripted(whole), k + 1, history);
            turn.Ended? && turn.events + [Final(turn.outcome)] == whole[3 * k + 1..]
  {
    var rest := whole[3 * k + 1..];
    Advance(Ready(k), rest, max);
    assert AtIteration(whole, k + 1) == rest;
    assert Scripted(whole).decide(k + 1, history) == Failure(CrashOf(rest[0]));
    assert rest == [] + [rest[0]];
  }

  /** A trace that ends with the model giving up. */
  ghost predicate EndsGivenUp(rest: seq<Event>, k: nat) {
    |rest| == 2 && rest[0] == LLMDecision(k + 1, GiveUp, None) &&
    rest[1].FinalDecision? && rest[1].reason.Some? &&
    rest[1] == Final(HandedOffFor(rest[1].reason.value, GaveUpDetail(rest[1].reason.value)))
  }

  lemma GiveUpEnds(rest: seq<Event>, k: nat, max: int)
    requires k < max && Walk(Ready(k), rest, max) == Closed
    requires rest != [] && rest[0].LLMDecision? && rest[0].decision == GiveUp
    ensures EndsGivenUp(rest, k)
  {
    Advance(Ready(k), rest, max);
    LayGiveUp(rest, k, max);
    Advance(GivenUp(k), rest[1..], max);
  }

  lemma HandoffTurn(w: World, rest: seq<Event>, k: nat, history: seq<Observation>)
    requires EndsGivenUp(rest, k) && w.decide(k + 1, history) == Success(Handoff(rest[1].reason.value))
    ensures var turn := TakeTurn(w, k + 1, history); turn.Ended? && turn.events + [Final(turn.outcome)] == rest
  {
    assert rest == [rest[0]] + [rest[1]];
  }

  lemma ReplayGiveUp(whole: seq<Event>, k: nat, max: int, history: seq<Observation>)
    requires k < max && 3 * k + 1 <= |whole| && Walk(Ready(k), whole[3 * k + 1..], max) == Closed
    requires var rest := whole[3 * k + 1..];
             rest != [] && rest[0].LLMDecision? && rest[0].decision == GiveUp
    ensures var turn := TakeTurn(Scripted(whole), k + 1, history);
            turn.Ended? && turn.events + [Final(turn.outcome)] == whole[3 * k + 1..]
  {
    var rest := whole[3 * k + 1..];
    GiveUpEnds(rest, k, max);
    assert AtIteration(whole, k + 1) == rest;
    HandoffTurn(Scripted(whole), rest, k, history);
  }

  lemma ReplayRound(whole: seq<Event>, k: nat, max: int, history: seq<Observation>)
    requires k < max && 3 * k + 1 <= |whole| && Walk(Ready(k), whole[3 * k + 1..], max) == Closed
    requires var rest := whole[3 * k + 1..];
             rest != [] && rest[0].LLMDecision? && rest[0].decision == CallTool
    ensures var rest := whole[3 * k + 1..];
            var turn := TakeTurn(Scripted(whole), k + 1, history);
            |rest| >= 4 && rest[2].ToolReturned? && turn.events == rest[..3] &&
            (if rest[2].ok then turn.Went? && Walk(Ready(k + 1), rest[3..], max) == Closed
             else turn.Ended? && |rest| == 4 && Final(turn.outcome) == rest[3])
  {
    var rest := whole[3 * k + 1..];
    Advance(Ready(k), rest, max);
    var tool := rest[0].tool.value;
    LayRound(rest, k, max, tool);
    Advance(Called(k, tool), rest[1..], max);
    Advance(Running(k, tool), rest[1..][1..], max);
    assert rest[1..][1..][0] == rest[2];
    if !rest[2].ok {
      assert rest[1..][1..][1..] == rest[3..];
      Advance(Broken(k, tool, rest[2].error.value), rest[3..], max);
    }
    assert AtIteration(whole, k + 1) == rest;
    ReplayCall(Scripted(whole), rest, k, tool, history);
  }

  /** A model and a tool that do what the round says. */
  lemma ReplayCall(w: World, rest: seq<Event>, k: nat, tool: string, history: seq<Observation>)
    requires |rest| >= 4 && rest[0] == LLMDecision(k + 1, CallTool, Some(tool)) && rest[1].ToolCalled? &&
             rest[1].name == tool
    requires rest[2].ToolReturned? && rest[2].name == tool
    requires if rest[2].ok then rest[2].summary.Some? && rest[2].error.None? && Summarisable(rest[2].summary.value)
             else rest[2].summary.None? && rest[2].error.Some? && ExplainsFailure(rest[3], tool, rest[2].error.value)
    requires w.decide(k + 1, history) == Success(ToolCall(tool, rest[1].args))
    requires w.tool(k + 1, tool, rest[1].args) == ScriptedResult(rest)
    ensures var turn := TakeTurn(w, k + 1, history);
            turn.events == rest[..3] && turn.Went? == rest[2].ok && (turn.Ended? ==> Final(turn.outcome) == rest[3])
  {
    var called := RunTool(w, k + 1, tool, rest[1].args);
    assert CallEvents(k + 1, tool, rest[1].args, called) == [rest[0], rest[1], rest[2]];
  }

  lemma ReplayDraft(whole: seq<Event>, k: nat, max: int, history: seq<Observation>)
    requires k < max && 3 * k + 1 <= |whole| && Walk(Ready(k), whole[3 * k + 1..], max) == Closed
    requires var rest := whole[3 * k + 1..];
             rest != [] && rest[0].LLMDecision? && rest[0].decision == DoReply
    ensures var rest := whole[3 * k + 1..];
            var turn := TakeTurn(Scripted(whole), k + 1, history);
            turn.Ended? && turn.events + [Final(turn.outcome)] == rest
  {
    var rest := whole[3 * k + 1..];
    Advance(Ready(k), rest, max);
    LayDraft(rest, k, max);
    Advance(Drafted(k), rest[1..], max);
    assert AtIteration(whole, k + 1) == rest;
    assert whole[|whole| - 1] == rest[|rest| - 1] && whole[|whole| - 2] == rest[|rest| - 2];
    if |rest| != 2 {
      Advance(Judged(k, rest[1].violations), rest[1..][1..], max);
      assert rest[1..][1..][0] == rest[2];
      ReplayVerdict(whole, rest, k, history);
    } else {
      ReplayUnrendered(whole, rest, k, history);
    }
  }

  lemma ReplayVerdict(whole: seq<Event>, rest: seq<Event>, k: nat, history: seq<Observation>)
    requires AtIteration(whole, k + 1) == rest && |rest| == 3 && |whole| >= 2
    requires whole[|whole| - 1] == rest[2] && whole[|whole| - 2] == rest[1]
    requires rest[0].LLMDecision? && rest[0] == LLMDecision(k + 1, DoReply, None)
    requires rest[1].GroundingChecked? && rest[1].literalsChecked >= 0 && rest[1].passed == (rest[1].violations == [])
    requires rest[2] == if rest[1].violations == [] then FinalDecision(Replied, None, None)
                        else Final(HandedOffFor(UNGROUNDED_REPLY, ViolationDetail(rest[1].violations)))
    ensures var turn := TakeTurn(Scripted(whole), k + 1, history);
            turn.Ended? && turn.events + [Final(turn.outcome)] == rest
  {
    assert Scripted(whole).decide(k + 1, history) == Success(Reply(BillingAllPaid));
    assert rest == [rest[0], rest[1]] + [rest[2]];
  }

  lemma ReplayUnrendered(whole: seq<Event>, rest: seq<Event>, k: nat, history: seq<Observation>)
    requires AtIteration(whole, k + 1) == rest && |rest| == 2 && |whole| >= 2
    requires whole[|whole| - 1] == rest[1] && whole[|whole| - 2] == rest[0]
    requires rest[0].LLMDecision? && rest[0] == LLMDecision(k + 1, DoReply, None) && IsCrash(rest[1])
    ensures var turn := TakeTurn(Scripted(whole), k + 1, history);
            turn.Ended? && turn.events + [Final(turn.outcome)] == rest
  {
    assert Scripted(whole).decide(k + 1, history) == Success(Reply(BillingAllPaid));
    assert rest == [rest[0]] + [rest[1]];
  }

  lemma ReplayClassified(events: seq<Event>, max: int, w: World, loop: Run, run: Run)
    requires events != [] && StandsAt(events, 0, max) && w == Scripted(events)
    requires loop == Loop(w, 1, max, []) && run == After([events[0]], loop)
    ensures run.events + [Final(run.outcome)] == events
  {
    ScriptedReplays(events, max);
    LoopReplays(w, events, Standing(events, max), 0, max, [], loop);
    Regroup([events[0]], loop.events, [Final(run.outcome)]);
    assert events == [events[0]] + events[1..];
  }

  /** Exact for an arbitrary checker: for each accepted trace there are a model, tools, templates
      and a checker, which may say anything, whose run leaves exactly that trace. */
  lemma EveryAcceptedTraceHappens(events: seq<Event>, max: int)
    requires Accepts(events, max)
    ensures TraceOf(Scripted(events), max) == events
  {
    Advance(Fresh, events, max);
    var w := Scripted(events);
    var first := events[0];
    if first.IntentClassified? {
      if first.intent == UnknownIntent {
        Advance(Refused(first.keywords), events[1..], max);
        assert events == [first] + [events[1]];
      } else {
        ReplayClassified(events, max, w, Loop(w, 1, max, []), Decide(w, max));
      }
    } else {
      assert events == [] + [first];
    }
  }
}

/**
 The traces of runs under the real checker: those the automaton accepts whose grounding verdict,
 if there is one, the checker does pass on some reply over results the trace summarises.
 */
module GenuineTraces {
  import opened Wrappers
  import opened Domain
  import opened FactSets
  import opened Grounding
  import opened Trace
  import opened Orchestrator
  import opened TraceGrammar
  import opened RunFacts

  // ---------------------------------------------------------------------------------
  // Honest traces
  // ---------------------------------------------------------------------------------

  /** Observations of the given results. Facts depend on nothing else. */
  function Observing(results: seq<ToolResult>): (r: seq<Observation>)
    ensures |r| == |results| && forall k :: 0 <= k < |results| ==> r[k].result == results[k]
  {
    seq(|results|, k requires 0 <= k < |results| => Observation("", map[], results[k]))
  }

  predicate SameResults(a: seq<Observation>, b: seq<Observation>) {
    |a| == |b| && forall k :: 0 <= k < |a| ==> a[k].result == b[k].result
  }

  lemma {:induction false} FactsOfResults(a: seq<Observation>, b: seq<Observation>)
    requires SameResults(a, b)
    ensures FromObservations(a) == FromObservations(b)
  {
    if a == [] {
    } else {
      FactsOfResults(a[..|a| - 1], b[..|b| - 1]);
    }
  }

  /** Results with exactly the recorded summaries, one for one. */
  ghost predicate Summarised(results: seq<ToolResult>, recorded: seq<(string, Fields)>) {
    |results| == |recorded| && forall k :: 0 <= k < |results| ==> Summarise(results[k]) == Success(recorded[k].1)
  }

  /** The checker's verdict on `reply`, against the facts of `results`, is what the step records. */
  predicate VerdictOn(e: Event, results: seq<ToolResult>, reply: string, safe: set<string>)
    requires e.GroundingChecked?
  {
    var checked := Check(reply, FromObservations(Observing(results)), safe);
    e.literalsChecked == |checked.literals| && e.violations == checked.violations
  }

  /** Some reply, over results the trace summarises, earns this verdict. */
  ghost predicate Earned(e: Event, recorded: seq<(string, Fields)>)
    requires e.GroundingChecked?
  {
    exists results, reply, safe :: Summarised(results, recorded) && VerdictOn(e, results, reply, safe)
  }

  ghost predicate Honest(events: seq<Event>) {
    forall e :: e in events && e.GroundingChecked? ==> Earned(e, OkResults(events))
  }

  /** The reply earns every verdict among the events. */
  ghost predicate AllEarned(events: seq<Event>, results: seq<ToolResult>, reply: string, safe: set<string>) {
    forall e :: e in events && e.GroundingChecked? ==> VerdictOn(e, results, reply, safe)
  }

  lemma EarnedPart(part: seq<Event>, whole: seq<Event>, results: seq<ToolResult>, reply: string, safe: set<string>)
    requires AllEarned(whole, results, reply, safe) && forall e :: e in part ==> e in whole
    ensures AllEarned(part, results, reply, safe)
  {
  }

  // ---------------------------------------------------------------------------------
  // Runs under the real checker are honest
  // ---------------------------------------------------------------------------------

  /** The step records what the world's checker says of `reply` against the facts of `history`. */
  predicate CheckedAs(w: World, e: Event, history: seq<Observation>, reply: string, safe: set<string>) {
    var checked := w.verify(reply, FromObservations(history), safe);
    e == GroundingChecked(checked.violations == [], |checked.literals|, checked.violations)
  }

  ghost predicate CheckedOver(w: World, e: Event, history: seq<Observation>) {
    exists reply, safe :: CheckedAs(w, e, history, reply, safe)
  }

  lemma GroundChecks(w: World, template: ReplyTemplate, history: seq<Observation>, e: Event)
    requires e in Ground(w, template, history).events
    ensures CheckedOver(w, e, history)
  {
    var renderer := w.resolve(template).value;
    var reply := renderer.render(FromObservations(history)).value;
    assert CheckedAs(w, e, history, reply, renderer.safe);
  }

  lemma TurnChecks(w: World, i: int, history: seq<Observation>, e: Event)
    requires e in TakeTurn(w, i, history).events && e.GroundingChecked?
    ensures TakeTurn(w, i, history).Ended? && CheckedOver(w, e, history)
  {
    match w.decide(i, history)
    case Success(Reply(template)) => GroundChecks(w, template, history, e);
    case _ => assert false;
  }

  lemma {:induction false} LoopChecks(w: World, i: int, max: int, history: seq<Observation>, run: Run, e: Event)
    requires run == Loop(w, i, max, history) && e in run.events && e.GroundingChecked?
    ensures CheckedOver(w, e, run.history)
    decreases if i <= max then max - i + 1 else 0
  {
    var turn := TakeTurn(w, i, history);
    LoopTurn(w, i, max, history, turn);
    if e in turn.events {
      TurnChecks(w, i, history, e);
    } else {
      LoopChecks(w, i + 1, max, history + [turn.observed], Loop(w, i + 1, max, history + [turn.observed]), e);
    }
  }

  lemma RunChecks(w: World, max: int, e: Event)
    requires e in TraceOf(w, max) && e.GroundingChecked?
    ensures CheckedOver(w, e, Decide(w, max).history)
  {
    assert e in Decide(w, max).events;
    LoopChecks(w, 1, max, [], Loop(w, 1, max, []), e);
  }

  function ResultsOf(history: seq<Observation>): (r: seq<ToolResult>)
    ensures |r| == |history| && forall k :: 0 <= k < |history| ==> r[k] == history[k].result
  {
    seq(|history|, k requires 0 <= k < |history| => history[k].result)
  }

  lemma RunSummarised(w: World, max: int)
    ensures Summarised(ResultsOf(Decide(w, max).history), OkResults(TraceOf(w, max)))
  {
    RunHistory(w, max);
    var history, found := Decide(w, max).history, OkResults(TraceOf(w, max));
    forall k | 0 <= k < |found| ensures Summarise(history[k].result) == Success(found[k].1) {
      assert Answered(w, k + 1, history[k], found[k]);
    }
  }

  lemma VerdictIs(e: Event, results: seq<ToolResult>, facts: FactSet, reply: string, safe: set<string>,
                  checked: GroundingResult)
    requires e.GroundingChecked? && facts == FromObservations(Observing(results))
    requires checked == Check(reply, facts, safe)
    ensures VerdictOn(e, results, reply, safe) <==>
            e.literalsChecked == |checked.literals| && e.violations == checked.violations
  {
  }

  lemma GenuineVerdict(w: World, reply: string, facts: FactSet, safe: set<string>)
    requires Genuine(w)
    ensures w.verify(reply, facts, safe) == Check(reply, facts, safe)
  {
  }

  lemma CheckedAgainst(w: World, e: Event, history: seq<Observation>, reply: string, safe: set<string>, facts: FactSet,
                       checked: GroundingResult)
    requires e.GroundingChecked? && CheckedAs(w, e, history, reply, safe)
    requires facts == FromObservations(history) && checked == w.verify(reply, facts, safe)
    ensures e.literalsChecked == |checked.literals| && e.violations == checked.violations
  {
  }

  lemma CheckedIsVerdict(w: World, e: Event, history: seq<Observation>, reply: string, safe: set<string>,
                         results: seq<ToolResult>, facts: FactSet)
    requires Genuine(w) && e.GroundingChecked? && CheckedAs(w, e, history, reply, safe)
    requires results == ResultsOf(history) && facts == FromObservations(history)
    ensures VerdictOn(e, results, reply, safe)
  {
    var checked := w.verify(reply, facts, safe);
    CheckedAgainst(w, e, history, reply, safe, facts, checked);
    GenuineVerdict(w, reply, facts, safe);
    ResultsAreAll(history, results, facts);
    VerdictIs(e, results, facts, reply, safe, checked);
  }

  lemma ResultsAreAll(history: seq<Observation>, results: seq<ToolResult>, facts: FactSet)
    requires results == ResultsOf(history) && facts == FromObservations(history)
    ensures facts == FromObservations(Observing(results))
  {
    FactsOfResults(history, Observing(results));
  }

  lemma GenuineIsHonest(w: World, max: int)
    requires Genuine(w)
    ensures Honest(TraceOf(w, max))
  {
    var history := Decide(w, max).history;
    RunSummarised(w, max);
    forall e | e in TraceOf(w, max) && e.GroundingChecked? ensures Earned(e, OkResults(TraceOf(w, max))) {
      RunChecks(w, max, e);
      var reply, safe :| CheckedAs(w, e, history, reply, safe);
      CheckedIsVerdict(w, e, history, reply, safe, ResultsOf(history), FromObservations(history));
    }
  }

  // ---------------------------------------------------------------------------------
  // Every honest trace is left by such a run
  // ---------------------------------------------------------------------------------

  /** A world whose model ignores what it observed and whose templates always render. */
  ghost predicate Oblivious(w: World) {
    (forall i, g, h :: w.decide(i, g) == w.decide(i, h)) &&
    (forall t, facts :: w.resolve(t).Success? ==> w.resolve(t).value.render(facts).Success?)
  }

  /** The same world with the real checker: where a call succeeds the `i`-th result is returned,
      and every template that resolves renders `reply`. */
  function Corrected(w: World, results: seq<ToolResult>, reply: string, safe: set<string>): World {
    World(w.classify, w.decide,
          (i, tool, args) =>
            if RunTool(w, i, tool, args).Success? && 1 <= i <= |results| then Success(results[i - 1])
            else w.tool(i, tool, args),
          template =>
            if w.resolve(template).Failure? then Failure(w.resolve(template).error)
            else Success(Renderer(facts => Success(reply), safe)),
          (r, facts, s) => Check(r, facts, s))
  }

  /** What is fixed while the two worlds run side by side. */
  ghost predicate SideBySide(w: World, v: World, results: seq<ToolResult>, recorded: seq<(string, Fields)>,
                             reply: string, safe: set<string>) {
    Oblivious(w) && v == Corrected(w, results, reply, safe) && Summarised(results, recorded)
  }

  /** The corrected run has observed the first results, and iteration `i` comes next. */
  predicate HasObserved(history: seq<Observation>, results: seq<ToolResult>, i: int) {
    i == |history| + 1 && |history| <= |results| && forall k :: 0 <= k < |history| ==> history[k].result == results[k]
  }

  /** Two turns that record the same, end with the same decision or go on together. */
  predicate TurnsAlike(a: Turn, b: Turn) {
    a.events == b.events && a.Went? == b.Went? && (a.Ended? ==> Final(a.outcome) == Final(b.outcome))
  }

  lemma CallsAlike(w: World, v: World, i: int, g: seq<Observation>, h: seq<Observation>, results: seq<ToolResult>,
                   recorded: seq<(string, Fields)>, reply: string, safe: set<string>)
    requires SideBySide(w, v, results, recorded, reply, safe) && HasObserved(h, results, i)
    requires w.decide(i, g).Success? && w.decide(i, g).value.ToolCall?
    requires TakeTurn(w, i, g).Went? ==>
               |h| < |results| && |OkResults(TakeTurn(w, i, g).events)| == 1 &&
               OkResults(TakeTurn(w, i, g).events)[0] == recorded[|h|]
    ensures TurnsAlike(TakeTurn(w, i, g), TakeTurn(v, i, h))
    ensures TakeTurn(v, i, h).Went? ==> |h| < |results| && TakeTurn(v, i, h).observed.result == results[|h|]
  {
    var ToolCall(tool, args) := w.decide(i, g).value;
    assert v.decide(i, h) == w.decide(i, g);
    var called := RunTool(w, i, tool, args);
    if called.Success? {
      CallResults(i, tool, args, called);
      assert v.tool(i, tool, args) == Success(results[|h|]);
    } else {
      assert v.tool(i, tool, args) == w.tool(i, tool, args);
    }
  }

  lemma CorrectedDraft(v: World, template: ReplyTemplate, h: seq<Observation>, facts: FactSet, reply: string,
                       safe: set<string>)
    requires Genuine(v) && facts == FromObservations(h) && v.resolve(template).Success?
    requires v.resolve(template).value.render(facts) == Success(reply) && v.resolve(template).value.safe == safe
    ensures Ground(v, template, h) == Verdict(reply, Check(reply, facts, safe))
  {
  }

  lemma CorrectedRenders(w: World, v: World, template: ReplyTemplate, results: seq<ToolResult>, facts: FactSet,
                         reply: string, safe: set<string>)
    requires v == Corrected(w, results, reply, safe) && w.resolve(template).Success?
    ensures Genuine(v) && v.resolve(template).Success?
    ensures v.resolve(template).value.render(facts) == Success(reply) && v.resolve(template).value.safe == safe
  {
  }

  lemma VerdictsAlike(reply: string, checked: GroundingResult, other: string, given: GroundingResult)
    requires |checked.literals| == |given.literals| && checked.violations == given.violations
    ensures TurnsAlike(Verdict(other, given), Verdict(reply, checked))
  {
  }

  /** What a draft that renders becomes. */
  lemma DraftRenders(w: World, template: ReplyTemplate, g: seq<Observation>, facts: FactSet)
    returns (other: string, given: GroundingResult)
    requires w.resolve(template).Success? && facts == FromObservations(g)
    requires w.resolve(template).value.render(facts).Success?
    ensures Ground(w, template, g) == Verdict(other, given)
  {
    other := w.resolve(template).value.render(facts).value;
    given := w.verify(other, facts, w.resolve(template).value.safe);
  }

  lemma DraftsAlike(w: World, v: World, template: ReplyTemplate, g: seq<Observation>, h: seq<Observation>,
                    results: seq<ToolResult>, recorded: seq<(string, Fields)>, reply: string, safe: set<string>)
    requires SideBySide(w, v, results, recorded, reply, safe) && SameResults(h, Observing(results))
    requires AllEarned(Ground(w, template, g).events, results, reply, safe)
    ensures TurnsAlike(Ground(w, template, g), Ground(v, template, h))
  {
    if w.resolve(template).Success? {
      var facts := FromObservations(h);
      FactsOfResults(h, Observing(results));
      CorrectedRenders(w, v, template, results, facts, reply, safe);
      CorrectedDraft(v, template, h, facts, reply, safe);
      var other, given := DraftRenders(w, template, g, FromObservations(g));
      EarnedIsGiven(other, given, results, facts, reply, safe, Check(reply, facts, safe));
    }
  }

  lemma EarnedIsGiven(other: string, given: GroundingResult, results: seq<ToolResult>, facts: FactSet, reply: string,
                      safe: set<string>, checked: GroundingResult)
    requires facts == FromObservations(Observing(results)) && checked == Check(reply, facts, safe)
    requires AllEarned(Verdict(other, given).events, results, reply, safe)
    ensures TurnsAlike(Verdict(other, given), Verdict(reply, checked))
  {
    var e := Verdict(other, given).events[0];
    assert e in Verdict(other, given).events;
    VerdictIs(e, results, facts, reply, safe, checked);
    VerdictsAlike(reply, checked, other, given);
  }

  lemma StopsAlike(w: World, v: World, i: int, g: seq<Observation>, h: seq<Observation>, results: seq<ToolResult>,
                   recorded: seq<(string, Fields)>, reply: string, safe: set<string>)
    requires SideBySide(w, v, results, recorded, reply, safe) && SameResults(h, Observing(results))
    requires w.decide(i, g).Success? ==> !w.decide(i, g).value.ToolCall?
    requires AllEarned(TakeTurn(w, i, g).events, results, reply, safe)
    ensures TurnsAlike(TakeTurn(w, i, g), TakeTurn(v, i, h)) && TakeTurn(w, i, g).Ended?
  {
    assert v.decide(i, h) == w.decide(i, g);
    match w.decide(i, g)
    case Success(Reply(template)) =>
      EarnedPart(Ground(w, template, g).events, TakeTurn(w, i, g).events, results, reply, safe);
      DraftsAlike(w, v, template, g, h, results, recorded, reply, safe);
    case _ =>
  }

  lemma TurnAlike(w: World, v: World, i: int, g: seq<Observation>, h: seq<Observation>, results: seq<ToolResult>,
                  recorded: seq<(string, Fields)>, reply: string, safe: set<string>)
    requires SideBySide(w, v, results, recorded, reply, safe) && HasObserved(h, results, i)
    requires var turn := TakeTurn(w, i, g);
             if turn.Went? then |h| < |results| && OkResults(turn.events) == [recorded[|h|]] else |h| == |results|
    requires AllEarned(TakeTurn(w, i, g).events, results, reply, safe)
    ensures TurnsAlike(TakeTurn(w, i, g), TakeTurn(v, i, h))
    ensures TakeTurn(v, i, h).Went? ==> |h| < |results| && TakeTurn(v, i, h).observed.result == results[|h|]
  {
    if w.decide(i, g).Success? && w.decide(i, g).value.ToolCall? {
      CallsAlike(w, v, i, g, h, results, recorded, reply, safe);
    } else {
      StopsAlike(w, v, i, g, h, results, recorded, reply, safe);
    }
  }

  /** The recorded results still to come. */
  ghost predicate StillToCome(run: Run, recorded: seq<(string, Fields)>, done: nat) {
    done <= |recorded| && OkResults(run.events) == recorded[done..]
  }

  lemma FirstToCome(w: World, i: int, g: seq<Observation>, turn: Turn, more: Run, run: Run,
                    recorded: seq<(string, Fields)>, done: nat)
    requires turn == TakeTurn(w, i, g) && StillToCome(run, recorded, done)
    requires if turn.Went? then run == After(turn.events, more) else run.events == turn.events
    ensures if turn.Went?
            then done < |recorded| && OkResults(turn.events) == [recorded[done]] &&
                 StillToCome(more, recorded, done + 1)
            else done == |recorded|
  {
    TurnResults(w, i, g);
    if turn.Went? {
      var first := OkResults(turn.events);
      OkResultsConcat(turn.events, more.events);
      assert recorded[done..] == first + OkResults(more.events);
      assert recorded[done..][0] == first[0] && recorded[done..][1..] == OkResults(more.events);
    }
  }

  lemma {:induction false} LoopsAlike(w: World, v: World, i: int, max: int, g: seq<Observation>, h: seq<Observation>,
                                      results: seq<ToolResult>, recorded: seq<(string, Fields)>, reply: string,
                                      safe: set<string>, theirs: Run, ours: Run)
    requires SideBySide(w, v, results, recorded, reply, safe) && HasObserved(h, results, i)
    requires theirs == Loop(w, i, max, g) && ours == Loop(v, i, max, h)
    requires StillToCome(theirs, recorded, |h|) && AllEarned(theirs.events, results, reply, safe)
    ensures RunsEndAlike(theirs, ours)
    decreases if i <= max then max - i + 1 else 0
  {
    if i > max {
    } else {
      var turn, turn' := TakeTurn(w, i, g), TakeTurn(v, i, h);
      LoopTurn(w, i, max, g, turn);
      LoopTurn(v, i, max, h, turn');
      var more := if turn.Went? then Loop(w, i + 1, max, g + [turn.observed]) else theirs;
      FirstToCome(w, i, g, turn, more, theirs, recorded, |h|);
      EarnedPart(turn.events, theirs.events, results, reply, safe);
      TurnAlike(w, v, i, g, h, results, recorded, reply, safe);
      if turn.Went? {
        var next := h + [turn'.observed];
        EarnedPart(more.events, theirs.events, results, reply, safe);
        NextObserved(h, next, results, i, turn'.observed);
        LoopsAlike(w, v, i + 1, max, g + [turn.observed], next, results, recorded, reply, safe, more,
                   Loop(v, i + 1, max, next));
        AfterAlike(turn.events, more, Loop(v, i + 1, max, next), theirs, ours);
      }
    }
  }

  lemma NextObserved(h: seq<Observation>, next: seq<Observation>, results: seq<ToolResult>, i: int, o: Observation)
    requires HasObserved(h, results, i) && next == h + [o]
    requires |h| < |results| && o.result == results[|h|]
    ensures HasObserved(next, results, i + 1) && |next| == |h| + 1
  {
  }

  ghost predicate RunsEndAlike(theirs: Run, ours: Run) {
    ours.events == theirs.events && Final(ours.outcome) == Final(theirs.outcome)
  }

  lemma AfterAlike(events: seq<Event>, more: Run, more': Run, theirs: Run, ours: Run)
    requires RunsEndAlike(more, more') && theirs == After(events, more) && ours == After(events, more')
    ensures RunsEndAlike(theirs, ours)
  {
  }

  lemma RunsAlike(w: World, v: World, max: int, results: seq<ToolResult>, reply: string, safe: set<string>)
    requires SideBySide(w, v, results, OkResults(TraceOf(w, max)), reply, safe)
    requires AllEarned(TraceOf(w, max), results, reply, safe)
    ensures TraceOf(v, max) == TraceOf(w, max)
  {
    if w.classify.Success? && w.classify.value.intent != UnknownIntent {
      var recorded := OkResults(TraceOf(w, max));
      var first := IntentClassified(w.classify.value.intent, w.classify.value.keywords);
      var theirs, ours := Loop(w, 1, max, []), Loop(v, 1, max, []);
      var last := Final(theirs.outcome);
      assert TraceOf(w, max) == ([first] + theirs.events) + [last];
      OkResultsConcat([first] + theirs.events, [last]);
      OkResultsConcat([first], theirs.events);
      OkOfOne(first);
      OkOfOne(last);
      assert recorded[0..] == recorded;
      LoopsAlike(w, v, 1, max, [], [], results, recorded, reply, safe, theirs, ours);
    }
  }

  lemma ScriptedIsOblivious(events: seq<Event>)
    ensures Oblivious(Scripted(events))
  {
  }

  lemma OneCheck(events: seq<Event>, max: int, e: Event, f: Event)
    requires Accepts(events, max) && e in events && f in events && e.GroundingChecked? && f.GroundingChecked?
    ensures e == f
  {
    AcceptedLayout(events, max);
    var i :| 0 <= i < |events| && events[i] == e;
    var j :| 0 <= j < |events| && events[j] == f;
  }

  /** Results, a reply and a safe list that earn the verdict of the trace, if it has one. */
  lemma OneVerdict(events: seq<Event>, max: int)
    returns (results: seq<ToolResult>, reply: string, safe: set<string>)
    requires Accepts(events, max) && Honest(events)
    ensures Summarised(results, OkResults(events)) && AllEarned(events, results, reply, safe)
  {
    if e :| e in events && e.GroundingChecked? {
      results, reply, safe :| Summarised(results, OkResults(events)) && VerdictOn(e, results, reply, safe);
      forall f | f in events && f.GroundingChecked? ensures VerdictOn(f, results, reply, safe) {
        OneCheck(events, max, e, f);
      }
    } else {
      EveryAcceptedTraceHappens(events, max);
      RunSummarised(Scripted(events), max);
      results, reply, safe := ResultsOf(Decide(Scripted(events), max).history), "", {};
    }
  }

  lemma HonestTraceHappens(events: seq<Event>, max: int) returns (v: World)
    requires Accepts(events, max) && Honest(events)
    ensures Genuine(v) && TraceOf(v, max) == events
  {
    var w := Scripted(events);
    var results, reply, safe := OneVerdict(events, max);
    EveryAcceptedTraceHappens(events, max);
    ScriptedIsOblivious(events);
    v := Corrected(w, results, reply, safe);
    RunsAlike(w, v, max, results, reply, safe);
  }

  ghost predicate Leaves(w: World, max: int, events: seq<Event>) { Genuine(w) && TraceOf(w, max) == events }

  /** The grammar is exact for the service as it is, with its one checker: a trace is left by some
      run if and only if the automaton accepts it and its grounding verdict, if it has one, can be
      earned over results with the recorded summaries. */
  lemma TracesOfRuns(events: seq<Event>, max: int)
    ensures Accepts(events, max) && Honest(events) <==> exists w :: Leaves(w, max, events)
  {
    if Accepts(events, max) && Honest(events) {
      var v := HonestTraceHappens(events, max);
      assert Leaves(v, max, events);
    }
    if w :| Leaves(w, max, events) {
      EveryRunIsAccepted(w, max);
      GenuineIsHonest(w, max);
    }
  }

  // ---------------------------------------------------------------------------------
  // A verdict no reply earns
  // ---------------------------------------------------------------------------------

  lemma {:induction false} FewerThanLiterals(literals: seq<Literal>, facts: FactSet, safe: set<string>)
    ensures |Unsourced(literals, facts, safe)| <= |literals|
  {
    if literals == [] {
    } else {
      FewerThanLiterals(literals[..|literals| - 1], facts, safe);
    }
  }

  /** Honesty is a condition of its own: a violation among no literals is accepted by the automaton
      and left by no run. */
  lemma UnearnedVerdict(events: seq<Event>, max: int, found: Violation)
    requires max >= 1
    requires events == [IntentClassified(BillingQuestion, []), LLMDecision(1, DoReply, None),
                        GroundingChecked(false, 0, [found]),
                        Final(HandedOffFor(UNGROUNDED_REPLY, ViolationDetail([found])))]
    ensures Accepts(events, max) && !Honest(events) && !exists w :: Leaves(w, max, events)
  {
    UnearnedIsAccepted(events, max, found);
    var e := events[2];
    assert e in events;
    forall results, reply, safe ensures !VerdictOn(e, results, reply, safe) {
      var facts := FromObservations(Observing(results));
      FewerThanLiterals(Extract(reply, facts), facts, safe);
    }
    TracesOfRuns(events, max);
  }

  lemma UnearnedIsAccepted(events: seq<Event>, max: int, found: Violation)
    requires max >= 1
    requires events == [IntentClassified(BillingQuestion, []), LLMDecision(1, DoReply, None),
                        GroundingChecked(false, 0, [found]),
                        Final(HandedOffFor(UNGROUNDED_REPLY, ViolationDetail([found])))]
    ensures Accepts(events, max)
  {
    WalkFirst(Fresh, events[0], events[1..], max);
    WalkFirst(Ready(0), events[1], events[2..], max);
    WalkFirst(Drafted(0), events[2], events[3..], max);
    Walk1(Judged(0, [found]), events[3], max);
    assert events == [events[0]] + events[1..] && events[1..] == [events[1]] + events[2..];
    assert events[2..] == [events[2]] + events[3..] && events[3..] == [events[3]];
  }
}

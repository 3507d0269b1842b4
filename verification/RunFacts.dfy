/** What a run's outcome says about its trace, and what its reply owes to its tools. */
module RunFacts {
  import opened Text
  import opened Scanners
  import opened Wrappers
  import opened Domain
  import opened FactSets
  import opened Grounding
  import opened Trace
  import opened Orchestrator

  // ---------------------------------------------------------------------------------
  // The history is the successful part of the trace
  // ---------------------------------------------------------------------------------

  /** The tool and summary of every successful tool result, in order. */
  function OkResults(events: seq<Event>): seq<(string, Fields)> {
    if events == [] then []
    else (if events[0].ToolReturned? && events[0].ok && events[0].summary.Some?
          then [(events[0].name, events[0].summary.value)] else []) + OkResults(events[1..])
  }

  lemma {:induction false} OkResultsConcat(a: seq<Event>, b: seq<Event>)
    ensures OkResults(a + b) == OkResults(a) + OkResults(b)
  {
    if a == [] {
      assert a + b == b;
    } else {
      assert (a + b)[1..] == a[1..] + b;
      OkResultsConcat(a[1..], b);
    }
  }

  lemma {:induction false} OkResultsIn(events: seq<Event>, k: nat)
    requires k < |OkResults(events)|
    ensures exists e :: e in events && e.ToolReturned? && e.ok && e.summary.Some? &&
                        e.name == OkResults(events)[k].0 && e.summary.value == OkResults(events)[k].1
  {
    var here := if events[0].ToolReturned? && events[0].ok && events[0].summary.Some? then 1 else 0;
    if here == 1 && k == 0 {
      assert events[0] in events;
    } else {
      OkResultsIn(events[1..], k - here);
    }
  }

  /** Observation `o` was returned by its tool at iteration `i`, and its summary recorded. */
  ghost predicate Answered(w: World, i: int, o: Observation, recorded: (string, Fields)) {
    w.tool(i, o.tool, o.args) == Success(o.result) && recorded.0 == o.tool && Summarise(o.result) == Success(recorded.1)
  }

  function OkResult(e: Event): seq<(string, Fields)> {
    if e.ToolReturned? && e.ok && e.summary.Some? then [(e.name, e.summary.value)] else []
  }

  lemma OkOfOne(e: Event)
    ensures OkResults([e]) == OkResult(e)
  {
    assert [e][1..] == [];
  }

  lemma {:induction false} NoReturns(events: seq<Event>)
    requires forall e :: e in events ==> !e.ToolReturned?
    ensures OkResults(events) == []
  {
    if events == [] {
    } else {
      NoReturns(events[1..]);
    }
  }

  lemma CallResults(i: int, tool: string, args: Fields, called: Result<(ToolResult, Fields), Exn>)
    ensures OkResults(CallEvents(i, tool, args, called)) == if called.Success? then [(tool, called.value.1)] else []
  {
    var e := CallEvents(i, tool, args, called);
    OkResultsConcat([e[0], e[1]], [e[2]]);
    NoReturns([e[0], e[1]]);
    OkOfOne(e[2]);
    assert e == [e[0], e[1]] + [e[2]];
  }

  lemma TurnResults(w: World, i: int, history: seq<Observation>)
    ensures var turn := TakeTurn(w, i, history);
            if turn.Went? then |OkResults(turn.events)| == 1 && Answered(w, i, turn.observed, OkResults(turn.events)[0])
            else OkResults(turn.events) == []
  {
    match w.decide(i, history)
    case Failure(_) =>
    case Success(ToolCall(tool, args)) =>
      CallResults(i, tool, args, RunTool(w, i, tool, args));
    case Success(Reply(template)) =>
      NoReturns(TakeTurn(w, i, history).events);
    case Success(Handoff(_)) =>
      NoReturns(TakeTurn(w, i, history).events);
  }

  /** Observations answered one for one, from iteration `i` on. */
  ghost predicate AllAnswered(w: World, i: int, observed: seq<Observation>, found: seq<(string, Fields)>) {
    |observed| == |found| && forall k :: 0 <= k < |found| ==> Answered(w, i + k, observed[k], found[k])
  }

  lemma AnsweredFirst(w: World, i: int, o: Observation, f: (string, Fields), os: seq<Observation>,
                      fs: seq<(string, Fields)>)
    requires Answered(w, i, o, f) && AllAnswered(w, i + 1, os, fs)
    ensures AllAnswered(w, i, [o] + os, [f] + fs)
  {
    forall k | 0 <= k < |[f] + fs| ensures Answered(w, i + k, ([o] + os)[k], ([f] + fs)[k]) {
      if k > 0 { assert Answered(w, (i + 1) + (k - 1), os[k - 1], fs[k - 1]); }
    }
  }

  /** The run extends `history` by the successful tool results of its events, one for one,
      from iteration `i` on. */
  ghost predicate Historical(w: World, i: int, history: seq<Observation>, run: Run) {
    |history| <= |run.history| && run.history[..|history|] == history &&
    AllAnswered(w, i, run.history[|history|..], OkResults(run.events))
  }

  lemma HistoryTail(history: seq<Observation>, o: Observation, whole: seq<Observation>)
    requires |history| < |whole| && whole[..|history| + 1] == history + [o]
    ensures whole[..|history|] == history && whole[|history|..] == [o] + whole[|history| + 1..]
  {
    assert whole[|history|] == whole[..|history| + 1][|history|];
    assert whole[..|history|] == whole[..|history| + 1][..|history|];
  }

  lemma HistoryStep(w: World, i: int, history: seq<Observation>, turn: Turn, more: Run, run: Run)
    requires turn.Went? && run == After(turn.events, more)
    requires |OkResults(turn.events)| == 1 && Answered(w, i, turn.observed, OkResults(turn.events)[0])
    requires Historical(w, i + 1, history + [turn.observed], more)
    ensures Historical(w, i, history, run) && |OkResults(run.events)| == |OkResults(more.events)| + 1
  {
    OkResultsConcat(turn.events, more.events);
    HistoryTail(history, turn.observed, more.history);
    var first, rest := OkResults(turn.events), OkResults(more.events);
    AnsweredFirst(w, i, turn.observed, first[0], more.history[|history| + 1..], rest);
    assert first == [first[0]];
  }

  lemma NoMoreHistory(w: World, i: int, run: Run)
    requires OkResults(run.events) == []
    ensures Historical(w, i, run.history, run)
  {
  }

  lemma {:induction false} LoopHistory(w: World, i: int, max: int, history: seq<Observation>, run: Run)
    requires run == Loop(w, i, max, history)
    ensures Historical(w, i, history, run) && |OkResults(run.events)| <= (if i <= max then max - i + 1 else 0)
    decreases if i <= max then max - i + 1 else 0
  {
    if i <= max {
      var turn := TakeTurn(w, i, history);
      TurnResults(w, i, history);
      LoopTurn(w, i, max, history, turn);
      if turn.Went? {
        var next := history + [turn.observed];
        var more := Loop(w, i + 1, max, next);
        LoopHistory(w, i + 1, max, next, more);
        HistoryStep(w, i, history, turn, more, run);
      } else {
        NoMoreHistory(w, i, run);
      }
    } else {
      NoMoreHistory(w, i, run);
    }
  }

  lemma HistoryAfter(w: World, first: Event, loop: Run, run: Run)
    requires OkResult(first) == [] && run == After([first], loop) && Historical(w, 1, [], loop)
    ensures Historical(w, 1, [], run) && OkResults(run.events) == OkResults(loop.events)
  {
    OkOfOne(first);
    OkResultsConcat([first], loop.events);
  }

  lemma DecideHistory(w: World, max: int)
    ensures var run := Decide(w, max);
            Historical(w, 1, [], run) && |OkResults(run.events)| <= (if max >= 0 then max else 0)
  {
    if w.classify.Success? {
      var first := IntentClassified(w.classify.value.intent, w.classify.value.keywords);
      OkOfOne(first);
      if first.intent != UnknownIntent {
        var loop := Loop(w, 1, max, []);
        LoopHistory(w, 1, max, [], loop);
        HistoryAfter(w, first, loop, Decide(w, max));
      }
    }
  }

  lemma HistoryWithFinal(w: World, run: Run, last: Event)
    requires OkResult(last) == [] && Historical(w, 1, [], run)
    ensures var found := OkResults(run.events + [last]);
            |run.history| == |found| &&
              (forall k :: 0 <= k < |found| ==> Answered(w, k + 1, run.history[k], found[k])) &&
            found == OkResults(run.events)
  {
    OkResultsConcat(run.events, [last]);
    OkOfOne(last);
    var found := OkResults(run.events);
    assert run.history[0..] == run.history;
    assert forall k :: 0 <= k < |found| ==> Answered(w, 1 + k, run.history[k], found[k]);
  }

  /** The observations of a run are the successful tool results of its trace, one for one:
      the k-th is what the tool returned at iteration k + 1, recorded under its summary. */
  lemma RunHistory(w: World, max: int)
    ensures var run := Decide(w, max);
            var found := OkResults(TraceOf(w, max));
            |run.history| == |found| && |found| <= (if max >= 0 then max else 0) &&
            forall k :: 0 <= k < |found| ==> Answered(w, k + 1, run.history[k], found[k])
  {
    DecideHistory(w, max);
    var run := Decide(w, max);
    HistoryWithFinal(w, run, Final(run.outcome));
  }

  // ---------------------------------------------------------------------------------
  // Replies: rendered over what the run itself observed, and passed
  // ---------------------------------------------------------------------------------

  /** The run replied with `reply`: the chosen template rendered it from the facts, and the
      same template's check of it found nothing. */
  ghost predicate Passed(w: World, run: Run, template: ReplyTemplate, reply: string) {
    var facts := FromObservations(run.history);
    w.resolve(template).Success? && w.resolve(template).value.render(facts) == Success(reply) &&
    w.verify(reply, facts, w.resolve(template).value.safe).violations == []
  }

  lemma GroundPassed(w: World, template: ReplyTemplate, history: seq<Observation>, run: Run)
    requires var turn := Ground(w, template, history);
             turn.Ended? && turn.outcome.status == Replied && run.history == history && run.outcome == turn.outcome
    ensures run.outcome.reply.Some? && Passed(w, run, template, run.outcome.reply.value)
  {
  }

  lemma {:induction false} LoopPassed(w: World, i: int, max: int, history: seq<Observation>)
    returns (template: ReplyTemplate)
    requires Loop(w, i, max, history).outcome.status == Replied
    ensures var run := Loop(w, i, max, history);
            run.outcome.reply.Some? && Passed(w, run, template, run.outcome.reply.value)
    decreases if i <= max then max - i + 1 else 0
  {
    var turn := TakeTurn(w, i, history);
    LoopTurn(w, i, max, history, turn);
    if turn.Went? {
      template := LoopPassed(w, i + 1, max, history + [turn.observed]);
    } else {
      template := w.decide(i, history).value.template;
      GroundPassed(w, template, history, Loop(w, i, max, history));
    }
  }

  /** A record behind some successful tool result of the trace: what the tool answered there,
      whose summary the step records, holds it. */
  ghost predicate ReturnedInRun(w: World, max: int, r: Record) {
    var history, found := Decide(w, max).history, OkResults(TraceOf(w, max));
    exists k :: 0 <= k < |history| && k < |found| && Answered(w, k + 1, history[k], found[k]) &&
      r in history[k].result.records
  }

  lemma ObservedIsReturned(w: World, max: int, r: Record)
    requires Observed(Decide(w, max).history, r)
    ensures ReturnedInRun(w, max, r)
  {
    RunHistory(w, max);
    var history := Decide(w, max).history;
    var k :| 0 <= k < |history| && r in history[k].result.records;
    assert Answered(w, k + 1, history[k], OkResults(TraceOf(w, max))[k]);
  }

  /** A number the facts of a run allow: an amount, kWh or cost of a record returned in the
      run, or a count of its rows. */
  ghost predicate NumberReturned(w: World, max: int, facts: FactSet, n: real) {
    (exists r :: ReturnedInRun(w, max, r) &&
      ((r.Invoice? && n == r.amount) || (r.Session? && (n == r.kwh || n == r.cost)))) ||
    (facts.invoices != [] && n == |facts.invoices| as real) || (facts.sessions != [] && n == |facts.sessions| as real)
  }

  lemma FactReturned(w: World, max: int, n: real)
    ensures var facts := FromObservations(Decide(w, max).history);
            ((exists f :: f in facts.invoices && f.amount == n) ||
              (exists f :: f in facts.sessions && (f.kwh == n || f.cost == n))) ==>
              NumberReturned(w, max, facts, n)
  {
    var history := Decide(w, max).history;
    var facts := FromObservations(history);
    FactsAreObserved(history);
    forall r | Observed(history, r) ensures ReturnedInRun(w, max, r) {
      ObservedIsReturned(w, max, r);
    }
  }

  lemma AllowedNumberCases(facts: FactSet, n: real)
    requires n in facts.AllowedNumbers()
    ensures (exists f :: f in facts.invoices && f.amount == n) ||
            (exists f :: f in facts.sessions && (f.kwh == n || f.cost == n)) ||
            (facts.invoices != [] && n == |facts.invoices| as real) ||
              (facts.sessions != [] && n == |facts.sessions| as real)
  {
  }

  lemma AllowedNumberReturned(w: World, max: int, n: real)
    requires n in FromObservations(Decide(w, max).history).AllowedNumbers()
    ensures NumberReturned(w, max, FromObservations(Decide(w, max).history), n)
  {
    AllowedNumberCases(FromObservations(Decide(w, max).history), n);
    FactReturned(w, max, n);
  }

  /** End-to-end grounding: whatever the model, the tools and the templates do, if a run
      replies then every digit of the reply is accounted for by that run -- it is in an
      identifier the tools returned, in a name or station they returned, or in a numeral equal
      in value to an amount, kWh, cost or row count of theirs or to a safe number of the
      template that rendered it. */
  lemma RepliesAreGrounded(w: World, max: int) returns (template: ReplyTemplate)
    requires Genuine(w) && Decide(w, max).outcome.status == Replied
    ensures Decide(w, max).outcome.reply.Some? && w.resolve(template).Success?
    ensures var reply := Decide(w, max).outcome.reply.value;
            var facts := FromObservations(Decide(w, max).history);
            var safe := w.resolve(template).value.safe;
            w.resolve(template).value.render(facts) == Success(reply) &&
            Check(reply, facts, safe).violations == [] &&
            (forall i :: 0 <= i < |reply| && IsDigit(reply[i]) ==> DigitAccounted(reply, facts, safe, i)) &&
            (forall n :: n in facts.AllowedNumbers() ==> NumberReturned(w, max, facts, n))
  {
    template := LoopPassed(w, 1, max, []);
    var run := Decide(w, max);
    assert run.history == Loop(w, 1, max, []).history;
    var reply := run.outcome.reply.value;
    var facts := FromObservations(run.history);
    var safe := w.resolve(template).value.safe;
    assert Check(reply, facts, safe).violations == [];
    forall i | 0 <= i < |reply| && IsDigit(reply[i]) ensures DigitAccounted(reply, facts, safe, i) {
      NoDigitEscapes(reply, facts, safe, i);
    }
    forall n | n in facts.AllowedNumbers() ensures NumberReturned(w, max, facts, n) {
      AllowedNumberReturned(w, max, n);
    }
  }

  ghost predicate IdReturned(w: World, max: int, id: string) {
    exists r :: ReturnedInRun(w, max, r) &&
      id == if r.Invoice? then r.invoiceId else if r.Session? then r.sessionId else r.userId
  }

  ghost predicate NameReturned(w: World, max: int, name: string) {
    exists r :: ReturnedInRun(w, max, r) && ((r.Session? && name == r.station) || (r.User? && name == r.name))
  }

  ghost predicate StatusReturned(w: World, max: int, status: string) {
    exists r :: ReturnedInRun(w, max, r) && !r.User? && status == StatusWord(r)
  }

  lemma FactsAreReturned(w: World, max: int)
    ensures Sourced(FromObservations(Decide(w, max).history), (r: Record) => ReturnedInRun(w, max, r))
  {
    var history := Decide(w, max).history;
    forall r | Observed(history, r) ensures ReturnedInRun(w, max, r) { ObservedIsReturned(w, max, r); }
    FromObservationsSourced(history, (r: Record) => ReturnedInRun(w, max, r));
  }

  lemma AllowedIdReturned(w: World, max: int, id: string)
    requires id in FromObservations(Decide(w, max).history).AllowedIdentifiers()
    ensures IdReturned(w, max, id)
  {
    FactsAreReturned(w, max);
  }

  lemma AllowedNameReturned(w: World, max: int, name: string)
    requires name in FromObservations(Decide(w, max).history).AllowedEntities()
    ensures NameReturned(w, max, name)
  {
    FactsAreReturned(w, max);
  }

  lemma AllowedStatusReturned(w: World, max: int, status: string)
    requires status in FromObservations(Decide(w, max).history).AllowedStatuses()
    ensures StatusReturned(w, max, status)
  {
    FactsAreReturned(w, max);
  }

  /** Every identifier of `reply`, every status word of its masked text in whatever case, and
      every name and station that was masked is a field of a record behind the run's trace. */
  ghost predicate WordsReturned(w: World, max: int, reply: string) {
    var names := FromObservations(Decide(w, max).history).AllowedEntities();
    (forall id :: id in Words(reply) && IsIdentifier(id) ==> IdReturned(w, max, id)) &&
    (forall name :: name in names ==> NameReturned(w, max, name)) &&
    (forall word :: word in Words(Mask(BlankIdentifiers(reply), names)) && IsStatus(word) ==>
      StatusReturned(w, max, LowerAll(word)))
  }

  /** The same for words. */
  lemma RepliesNameOnlyReturned(w: World, max: int)
    requires Genuine(w) && Decide(w, max).outcome.status == Replied
    ensures Decide(w, max).outcome.reply.Some? && WordsReturned(w, max, Decide(w, max).outcome.reply.value)
  {
    var template := LoopPassed(w, 1, max, []);
    var run := Decide(w, max);
    var reply := run.outcome.reply.value;
    var facts := FromObservations(run.history);
    var safe := w.resolve(template).value.safe;
    assert Passed(w, run, template, reply);
    NoWordEscapes(reply, facts, safe);
    forall id | id in facts.AllowedIdentifiers() ensures IdReturned(w, max, id) { AllowedIdReturned(w, max, id); }
    forall name | name in facts.AllowedEntities() ensures NameReturned(w, max, name) {
      AllowedNameReturned(w, max, name);
    }
    forall word | LowerAll(word) in facts.AllowedStatuses() ensures StatusReturned(w, max, LowerAll(word)) {
      AllowedStatusReturned(w, max, LowerAll(word));
    }
  }

  // ---------------------------------------------------------------------------------
  // Identifiers of a reply can be looked up in the trace
  // ---------------------------------------------------------------------------------

  /** Results of the shape the registry returns: `get_user` holds users only. */
  predicate RegistryShaped(history: seq<Observation>) {
    forall o | o in history :: o.result.tool == "get_user" ==> forall r | r in o.result.records :: r.User?
  }

  /** Some successful tool result of the trace lists `id` in its summary. */
  ghost predicate InTrace(events: seq<Event>, id: string) {
    exists e :: e in events && e.ToolReturned? && e.ok && e.summary.Some? && Referenced(e.summary.value, id)
  }

  lemma RowIsReferenced(w: World, max: int, r: Record)
    requires RegistryShaped(Decide(w, max).history) && Observed(Decide(w, max).history, r) && (r.Invoice? || r.Session?)
    ensures InTrace(TraceOf(w, max), if r.Invoice? then r.invoiceId else r.sessionId)
  {
    RunHistory(w, max);
    var run := Decide(w, max);
    var events := TraceOf(w, max);
    var k :| 0 <= k < |run.history| && r in run.history[k].result.records;
    var o := run.history[k];
    assert o in run.history;
    assert Answered(w, k + 1, o, OkResults(events)[k]);
    SummaryReferencesRows(o.result);
    OkResultsIn(events, k);
  }

  lemma ReplyIdentifierAllowed(w: World, max: int, id: string)
    requires Genuine(w) && Decide(w, max).outcome.status == Replied
    requires Decide(w, max).outcome.reply.Some? && id in Words(Decide(w, max).outcome.reply.value) && IsIdentifier(id)
    ensures id in FromObservations(Decide(w, max).history).AllowedIdentifiers()
  {
    var template := LoopPassed(w, 1, max, []);
    var run := Decide(w, max);
    var facts := FromObservations(run.history);
    var safe := w.resolve(template).value.safe;
    assert Passed(w, run, template, run.outcome.reply.value);
    NoWordEscapes(run.outcome.reply.value, facts, safe);
  }

  lemma AllowedIdentifierTraceable(w: World, max: int, id: string)
    requires RegistryShaped(Decide(w, max).history)
    requires id in FromObservations(Decide(w, max).history).AllowedIdentifiers()
    ensures InTrace(TraceOf(w, max), id) || FromObservations(Decide(w, max).history).userId == Some(id)
  {
    var history := Decide(w, max).history;
    var facts := FromObservations(history);
    FactsAreObserved(history);
    if f :| f in facts.invoices && f.invoiceId == id {
      var r :| Observed(history, r) && r.Invoice? &&
        f == InvoiceFact(r.invoiceId, r.amount, r.currency, r.invoiceStatus);
      RowIsReferenced(w, max, r);
    } else if f :| f in facts.sessions && f.sessionId == id {
      var r :| Observed(history, r) && r.Session? &&
        f == SessionFact(r.sessionId, r.station, r.kwh, r.cost, r.sessionStatus);
      RowIsReferenced(w, max, r);
    }
  }

  /** In a run over registry-shaped results, every identifier of the reply is the projected
      user id, or is listed by a successful tool result of the same trace. */
  lemma RepliesAreTraceable(w: World, max: int, id: string)
    requires Genuine(w) && Decide(w, max).outcome.status == Replied && RegistryShaped(Decide(w, max).history)
    requires Decide(w, max).outcome.reply.Some? && id in Words(Decide(w, max).outcome.reply.value) && IsIdentifier(id)
    ensures InTrace(TraceOf(w, max), id) || FromObservations(Decide(w, max).history).userId == Some(id)
  {
    ReplyIdentifierAllowed(w, max, id);
    AllowedIdentifierTraceable(w, max, id);
  }

  // ---------------------------------------------------------------------------------
  // The reason agrees with the evidence
  // ---------------------------------------------------------------------------------

  /** The exception a run ends with, if it ends with one, and whether a tool call raised it. */
  datatype Raise = Quiet | Raise(error: Exn, byTool: bool)

  function RenderRaise(w: World, template: ReplyTemplate, history: seq<Observation>): Raise {
    var renderer := w.resolve(template);
    if renderer.Failure? then Raise(renderer.error, false)
    else
      var reply := renderer.value.render(FromObservations(history));
      if reply.Failure? then Raise(reply.error, false) else Quiet
  }

  function TurnRaise(w: World, i: int, history: seq<Observation>): Raise {
    match w.decide(i, history)
    case Failure(x) => Raise(x, false)
    case Success(ToolCall(tool, args)) =>
      var called := RunTool(w, i, tool, args);
      if called.Failure? then Raise(called.error, true) else Quiet
    case Success(Reply(template)) => RenderRaise(w, template, history)
    case Success(Handoff(_)) => Quiet
  }

  function LoopRaise(w: World, i: int, max: int, history: seq<Observation>): Raise
    decreases if i <= max then max - i + 1 else 0
  {
    if i > max then Quiet
    else
      match TakeTurn(w, i, history)
      case Ended(_, _) => TurnRaise(w, i, history)
      case Went(_, observed) => LoopRaise(w, i + 1, max, history + [observed])
  }

  function RunRaise(w: World, max: int): Raise {
    match w.classify
    case Failure(x) => Raise(x, false)
    case Success(c) => if c.intent == UnknownIntent then Quiet else LoopRaise(w, 1, max, [])
  }

  /** An exception that is mistaken for a tool failure, or hides one: a typed tool failure that no
      tool raised, or a tool's exception of another type under the name of a typed one. */
  predicate Misleads(r: Raise) {
    r.Raise? &&
    if r.byTool then r.error.Raised? && (r.error.kind == "UserNotFound" || r.error.kind == "NoDataAvailable")
    else !r.error.Raised?
  }

  predicate HasCheck(events: seq<Event>, passed: bool) {
    exists e | e in events :: e.GroundingChecked? && e.passed == passed
  }

  predicate HasFailure(events: seq<Event>, kind: string) {
    exists e | e in events :: e.ToolReturned? && !e.ok && e.error.Some? && e.error.value.kind == kind
  }

  predicate HasIntent(events: seq<Event>, unknown: bool) {
    exists e | e in events :: e.IntentClassified? && (e.intent == UnknownIntent <==> unknown)
  }

  /** What the reason is, read off the evidence. */
  ghost predicate Explained(outcome: Outcome, events: seq<Event>) {
    (outcome.status == Replied <==> HasCheck(events, true)) &&
    (outcome.reason == Some(UNGROUNDED_REPLY) <==> HasCheck(events, false)) &&
    (outcome.reason == Some(USER_NOT_FOUND) <==> HasFailure(events, "UserNotFound")) &&
    (outcome.reason == Some(DATA_NOT_FOUND) <==> HasFailure(events, "NoDataAvailable"))
  }

  /** What one turn adds to the evidence, given the exception it ended with. */
  ghost predicate TurnEvidence(turn: Turn, raised: Raise) {
    !HasIntent(turn.events, true) && !HasIntent(turn.events, false) &&
    if turn.Ended? then
      (Explained(turn.outcome, turn.events) <==> !Misleads(raised)) &&
      turn.outcome.reason != Some(UNSUPPORTED_INTENT) && turn.outcome.reason != Some(ITERATION_CAP_EXCEEDED)
    else
      !HasCheck(turn.events, true) && !HasCheck(turn.events, false) &&
      !HasFailure(turn.events, "UserNotFound") && !HasFailure(turn.events, "NoDataAvailable")
  }

  lemma CallExplained(w: World, i: int, history: seq<Observation>)
    requires w.decide(i, history).Success? && w.decide(i, history).value.ToolCall?
    ensures TurnEvidence(TakeTurn(w, i, history), TurnRaise(w, i, history))
  {
    var ToolCall(tool, args) := w.decide(i, history).value;
    var called := RunTool(w, i, tool, args);
    if called.Failure? {
      FailedCallExplained(i, tool, args, called.error, TakeTurn(w, i, history));
    } else {
      var e := TakeTurn(w, i, history).events;
      assert forall x :: x in e ==> x == e[0] || x == e[1] || x == e[2];
    }
  }

  /** A failed call shows the name of its exception, whatever its type. */
  lemma FailedCallExplained(i: int, tool: string, args: Fields, x: Exn, turn: Turn)
    requires turn == Ended(CallEvents(i, tool, args, Failure(x)), Caught(x, Some(tool)))
    ensures TurnEvidence(turn, Raise(x, true))
  {
    var e := turn.events;
    assert e[2] in e && forall y :: y in e ==> y == e[0] || y == e[1] || y == e[2];
    assert forall kind :: HasFailure(e, kind) <==> x.TypeName() == kind;
  }

  lemma GroundExplained(w: World, template: ReplyTemplate, history: seq<Observation>)
    ensures TurnEvidence(Ground(w, template, history), RenderRaise(w, template, history))
  {
    var events := Ground(w, template, history).events;
    if events != [] { assert events[0] in events && forall x :: x in events ==> x == events[0]; }
  }

  lemma DraftExplained(w: World, i: int, history: seq<Observation>)
    requires w.decide(i, history).Success? && w.decide(i, history).value.Reply?
    ensures TurnEvidence(TakeTurn(w, i, history), TurnRaise(w, i, history))
  {
    var template := w.decide(i, history).value.template;
    GroundExplained(w, template, history);
    DecisionAddsNothing(LLMDecision(i, DoReply, None), Ground(w, template, history), RenderRaise(w, template, history));
  }

  lemma DecisionAddsNothing(decision: Event, turn: Turn, raised: Raise)
    requires decision.LLMDecision? && turn.Ended? && TurnEvidence(turn, raised)
    ensures TurnEvidence(Ended([decision] + turn.events, turn.outcome), raised)
  {
    EvidenceConcat([decision], turn.events, true, "UserNotFound");
    EvidenceConcat([decision], turn.events, false, "NoDataAvailable");
  }

  lemma UndecidedExplained(x: Exn, turn: Turn)
    requires turn == Ended([], Caught(x, None))
    ensures TurnEvidence(turn, Raise(x, false))
  {
  }

  /** The trace records a model's own handoff. */
  predicate GaveUp(events: seq<Event>) {
    exists e | e in events :: e.LLMDecision? && e.decision == GiveUp
  }

  lemma GaveUpConcat(a: seq<Event>, b: seq<Event>)
    ensures GaveUp(a + b) <==> GaveUp(a) || GaveUp(b)
  {
    assert forall e :: e in a + b <==> e in a || e in b;
  }

  /** A turn gives up exactly if the model answers with a handoff. */
  lemma TurnGivesUp(w: World, i: int, history: seq<Observation>, turn: Turn)
    requires turn == TakeTurn(w, i, history)
    ensures GaveUp(turn.events) <==> w.decide(i, history).Success? && w.decide(i, history).value.Handoff?
    ensures GaveUp(turn.events) ==>
              turn.Ended? && turn.events == [LLMDecision(i, GiveUp, None)] &&
              turn.outcome.status == HandedOff && turn.outcome.reason == Some(w.decide(i, history).value.reason)
  {
    match w.decide(i, history)
    case Failure(_) =>
    case Success(ToolCall(tool, args)) =>
    case Success(Reply(template)) =>
      var first := LLMDecision(i, DoReply, None);
      GaveUpConcat([first], Ground(w, template, history).events);
    case Success(Handoff(_)) =>
      assert turn.events[0] in turn.events;
  }

  lemma TurnExplained(w: World, i: int, history: seq<Observation>)
    requires !GaveUp(TakeTurn(w, i, history).events)
    ensures TurnEvidence(TakeTurn(w, i, history), TurnRaise(w, i, history))
  {
    TurnGivesUp(w, i, history, TakeTurn(w, i, history));
    match w.decide(i, history)
    case Failure(x) => UndecidedExplained(x, TakeTurn(w, i, history));
    case Success(ToolCall(_, _)) => CallExplained(w, i, history);
    case Success(Reply(_)) => DraftExplained(w, i, history);
    case Success(Handoff(_)) => assert false;
  }

  lemma EvidenceConcat(a: seq<Event>, b: seq<Event>, passed: bool, kind: string)
    ensures HasCheck(a + b, passed) <==> HasCheck(a, passed) || HasCheck(b, passed)
    ensures HasFailure(a + b, kind) <==> HasFailure(a, kind) || HasFailure(b, kind)
    ensures HasIntent(a + b, passed) <==> HasIntent(a, passed) || HasIntent(b, passed)
  {
    assert forall e :: e in a + b <==> e in a || e in b;
  }

  /** No check, no tool failure of the two kinds and no unknown intent. */
  predicate NoEvidence(events: seq<Event>) {
    !HasCheck(events, true) && !HasCheck(events, false) && !HasIntent(events, true) &&
    !HasFailure(events, "UserNotFound") && !HasFailure(events, "NoDataAvailable")
  }

  lemma NoEvidenceConcat(a: seq<Event>, b: seq<Event>)
    ensures NoEvidence(a + b) <==> NoEvidence(a) && NoEvidence(b)
  {
    EvidenceConcat(a, b, true, "UserNotFound");
    EvidenceConcat(a, b, false, "NoDataAvailable");
  }

  /** The evidence of the loop from iteration `i` on. If the model gave up, nothing explains
      the reason but its own word; otherwise the evidence does, unless the run ended with a
      misleading exception, and the cap is reached exactly when every iteration left was a
      successful tool round. */
  ghost predicate LoopEvidence(run: Run, raised: Raise, left: int) {
    if GaveUp(run.events) then
      NoEvidence(run.events) && run.outcome.status == HandedOff && run.outcome.reason.Some? &&
        |OkResults(run.events)| < left && raised == Quiet
    else
      (Explained(run.outcome, run.events) <==> !Misleads(raised)) &&
      !HasIntent(run.events, true) && !HasIntent(run.events, false) &&
      run.outcome.reason != Some(UNSUPPORTED_INTENT) &&
      (run.outcome.reason == Some(ITERATION_CAP_EXCEEDED) <==> |OkResults(run.events)| == left)
  }

  lemma EvidenceStep(turn: Turn, more: Run, run: Run, raised: Raise, left: int)
    requires turn.Went? && run == After(turn.events, more) && LoopEvidence(more, raised, left - 1)
    requires |OkResults(turn.events)| == 1 && TurnEvidence(turn, Quiet) && !GaveUp(turn.events)
    ensures LoopEvidence(run, raised, left)
  {
    OkResultsConcat(turn.events, more.events);
    EvidenceConcat(turn.events, more.events, true, "UserNotFound");
    EvidenceConcat(turn.events, more.events, false, "NoDataAvailable");
    NoEvidenceConcat(turn.events, more.events);
    GaveUpConcat(turn.events, more.events);
  }

  lemma EvidenceGivenUp(i: int, run: Run, left: int)
    requires left >= 1 && run.events == [LLMDecision(i, GiveUp, None)]
    requires run.outcome.status == HandedOff && run.outcome.reason.Some?
    ensures LoopEvidence(run, Quiet, left)
  {
    assert run.events[0] in run.events;
    NoReturns(run.events);
  }

  lemma RaiseTurn(w: World, i: int, max: int, history: seq<Observation>, turn: Turn)
    requires i <= max && turn == TakeTurn(w, i, history)
    ensures LoopRaise(w, i, max, history) ==
            if turn.Ended? then TurnRaise(w, i, history) else LoopRaise(w, i + 1, max, history + [turn.observed])
    ensures turn.Went? ==> TurnRaise(w, i, history) == Quiet
  {
  }

  lemma EvidenceEnd(w: World, i: int, max: int, history: seq<Observation>)
    requires i <= max && TakeTurn(w, i, history).Ended?
    ensures LoopEvidence(Loop(w, i, max, history), LoopRaise(w, i, max, history), max - i + 1)
  {
    var turn, run := TakeTurn(w, i, history), Loop(w, i, max, history);
    LoopTurn(w, i, max, history, turn);
    RaiseTurn(w, i, max, history, turn);
    TurnGivesUp(w, i, history, turn);
    if GaveUp(turn.events) {
      EvidenceGivenUp(i, run, max - i + 1);
    } else {
      TurnExplained(w, i, history);
      TurnResults(w, i, history);
    }
  }

  lemma EvidenceMore(w: World, i: int, max: int, history: seq<Observation>, turn: Turn, next: seq<Observation>)
    requires i <= max && turn == TakeTurn(w, i, history) && turn.Went? && next == history + [turn.observed]
    requires LoopEvidence(Loop(w, i + 1, max, next), LoopRaise(w, i + 1, max, next), max - i)
    ensures LoopEvidence(Loop(w, i, max, history), LoopRaise(w, i, max, history), max - i + 1)
  {
    TurnGivesUp(w, i, history, turn);
    TurnExplained(w, i, history);
    TurnResults(w, i, history);
    LoopTurn(w, i, max, history, turn);
    RaiseTurn(w, i, max, history, turn);
    EvidenceStep(turn, Loop(w, i + 1, max, next), Loop(w, i, max, history), LoopRaise(w, i, max, history), max - i + 1);
  }

  lemma {:induction false} LoopExplained(w: World, i: int, max: int, history: seq<Observation>)
    requires i <= max + 1
    ensures LoopEvidence(Loop(w, i, max, history), LoopRaise(w, i, max, history), max - i + 1)
    decreases max - i + 1
  {
    if i > max {
    } else {
      var turn := TakeTurn(w, i, history);
      if turn.Went? {
        LoopExplained(w, i + 1, max, history + [turn.observed]);
        EvidenceMore(w, i, max, history, turn, history + [turn.observed]);
      } else {
        EvidenceEnd(w, i, max, history);
      }
    }
  }

  /** The reason can be read off the evidence: grounding failed exactly if a check failed; the
      user or the data was missing exactly if a tool result says so; the intent was unsupported
      exactly if it was classified unknown; the cap was reached exactly if there are as many
      successful tool rounds as iterations allowed; and the run replied exactly if a check
      passed. */
  ghost predicate Readable(outcome: Outcome, events: seq<Event>, max: nat) {
    Explained(outcome, events) &&
    (outcome.reason == Some(UNSUPPORTED_INTENT) <==> HasIntent(events, true)) &&
    (outcome.reason == Some(ITERATION_CAP_EXCEEDED) <==> HasIntent(events, false) && |OkResults(events)| == max)
  }

  /** The evidence of some events of a run. A model that gave up is believed exactly if it gave
      the one reason that leaves no evidence; a run that ended with a misleading exception is
      never. */
  ghost predicate RunEvidence(outcome: Outcome, events: seq<Event>, raised: Raise, max: nat) {
    Readable(outcome, events, max) <==>
      !(GaveUp(events) && outcome.reason != Some(TOOL_ERROR)) && !Misleads(raised)
  }

  lemma GivenUpReadable(outcome: Outcome, events: seq<Event>, max: nat)
    requires NoEvidence(events) && |OkResults(events)| < max && outcome.status == HandedOff && outcome.reason.Some?
    ensures Readable(outcome, events, max) <==> outcome.reason == Some(TOOL_ERROR)
  {
    match outcome.reason.value
    case USER_NOT_FOUND =>
    case DATA_NOT_FOUND =>
    case UNSUPPORTED_INTENT =>
    case TOOL_ERROR =>
    case ITERATION_CAP_EXCEEDED =>
    case UNGROUNDED_REPLY =>
  }

  lemma LoopAfterIntent(first: Event, loop: Run, run: Run, raised: Raise, max: nat)
    requires first.IntentClassified? && first.intent != UnknownIntent
    requires LoopEvidence(loop, raised, max) && run == After([first], loop)
    ensures RunEvidence(run.outcome, run.events, raised, max)
  {
    OkOfOne(first);
    OkResultsConcat([first], loop.events);
    EvidenceConcat([first], loop.events, true, "UserNotFound");
    EvidenceConcat([first], loop.events, false, "NoDataAvailable");
    NoEvidenceConcat([first], loop.events);
    GaveUpConcat([first], loop.events);
    assert first in [first];
    if GaveUp(loop.events) { GivenUpReadable(run.outcome, run.events, max); }
  }

  lemma RefusedExplained(first: Event, run: Run, max: nat)
    requires first.IntentClassified? && first.intent == UnknownIntent && run.events == [first]
    requires run.outcome.status == HandedOff && run.outcome.reason == Some(UNSUPPORTED_INTENT)
    ensures RunEvidence(run.outcome, run.events, Quiet, max)
  {
    assert first in run.events;
  }

  lemma UnclassifiedExplained(x: Exn, run: Run, max: nat)
    requires run == Run(Caught(x, None), [], [])
    ensures RunEvidence(run.outcome, run.events, Raise(x, false), max)
  {
  }

  lemma DecideExplained(w: World, max: nat)
    ensures RunEvidence(Decide(w, max).outcome, Decide(w, max).events, RunRaise(w, max), max)
  {
    var run := Decide(w, max);
    if w.classify.Failure? {
      UnclassifiedExplained(w.classify.error, run, max);
    } else {
      var first := IntentClassified(w.classify.value.intent, w.classify.value.keywords);
      if first.intent == UnknownIntent {
        RefusedExplained(first, run, max);
      } else {
        LoopExplained(w, 1, max, []);
        LoopAfterIntent(first, Loop(w, 1, max, []), run, LoopRaise(w, 1, max, []), max);
      }
    }
  }

  lemma FinalAddsNothing(events: seq<Event>, last: Event, outcome: Outcome, max: nat)
    requires last.FinalDecision?
    ensures Readable(outcome, events + [last], max) <==> Readable(outcome, events, max)
    ensures GaveUp(events + [last]) <==> GaveUp(events)
  {
    EvidenceConcat(events, [last], true, "UserNotFound");
    EvidenceConcat(events, [last], false, "NoDataAvailable");
    OkResultsConcat(events, [last]);
    OkOfOne(last);
    GaveUpConcat(events, [last]);
  }

  /** For every run, whatever the model, the tools and the templates do: the reason can be read
      off the trace if and only if the model did not end the run itself, or ended it with the
      reason `TOOL_ERROR`, and the run did not end with a misleading exception. */
  lemma ReasonAgreesWithEvidence(w: World, max: nat)
    ensures var outcome := Decide(w, max).outcome;
            var events := TraceOf(w, max);
            Readable(outcome, events, max) <==>
              !(GaveUp(events) && outcome.reason != Some(TOOL_ERROR)) && !Misleads(RunRaise(w, max))
  {
    DecideExplained(w, max);
    var run := Decide(w, max);
    FinalAddsNothing(run.events, Final(run.outcome), run.outcome, max);
  }

  /** A model's own handoff carries whatever reason it likes: here a reply is reported ungrounded
      though nothing was checked. */
  lemma ModelHandoffBorrowsReason(w: World, max: nat, intent: Intent)
    requires max >= 1 && intent != UnknownIntent && w.classify == Success(Classification(intent, []))
    requires w.decide(1, []) == Success(Handoff(UNGROUNDED_REPLY))
    ensures Decide(w, max).outcome.reason == Some(UNGROUNDED_REPLY) && !HasCheck(TraceOf(w, max), false)
  {
    LoopTurn(w, 1, max, [], TakeTurn(w, 1, []));
  }
}

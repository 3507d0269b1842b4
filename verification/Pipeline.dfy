/** One ticket, from the store and back: read, decide, record the final decision, write once,
    then count. */
module Pipeline {
  import opened Wrappers
  import opened Domain
  import opened Trace
  import opened Orchestrator
  import opened Codec
  import opened Sorting
  import opened Tickets
  import opened Stores
  import opened StoreRefinement
  import opened Metrics
  import opened RunMetrics

  /** What a run raises to its caller: an unknown id, or a failing store. */
  datatype PipelineError = NoTicket(id: string) | StoreFailed(e: StoreError)

  function ResolutionOf(outcome: Outcome): Resolution { Resolution(outcome.status, outcome.reply, outcome.reason) }

  /** The steps a run leaves on a clock that reads `start` first. */
  function StepsOf(w: World, max: int, start: int, tick: int): seq<TraceStep> { Stamp(TraceOf(w, max), 0, start, tick) }

  /** What the caller gets, the store holds and the registry shows. */
  datatype Aftermath = Aftermath(answer: Result<(), PipelineError>, stored: Tables, counts: Totals)

  /** What a run leaves behind, given what its write came to: all of it, or nothing. */
  function Committed(written: Result<Tables, StoreError>, before: Tables, counted: Totals, finished: Finished,
                     ib: seq<real>, db: seq<real>): Aftermath
    requires WellShaped(counted, ib, db)
  {
    match written
    case Failure(x) => Aftermath(Failure(StoreFailed(x)), before, counted)
    case Success(after) => Aftermath(Success(()), after, ApplyAll(counted, RunUpdates(finished), ib, db))
  }

  /** The aftermath of a decided run: its one write, and the count of what was written. */
  function WriteAftermath(db: Tables, counted: Totals, id: string, outcome: Outcome, steps: seq<TraceStep>, now: int,
                          iterationBounds: seq<real>, durationBounds: seq<real>): Aftermath
    requires WellShaped(counted, iterationBounds, durationBounds)
  {
    Committed(TableFinalise(db, now, id, ResolutionOf(outcome), steps), db, counted,
              Finished(outcome.status, outcome.reason, steps), iterationBounds, durationBounds)
  }

  /** One run of the pipeline: whose, what it decided and recorded, from when to when, on what
      store and registry, and what it left. */
  datatype Case = Case(w: World, max: int, id: string, outcome: Outcome, steps: seq<TraceStep>, start: int, tick: int,
                       written: int, before: Tables, counted: Totals, iterationBounds: seq<real>,
                       durationBounds: seq<real>, left: Aftermath)

  /** The run was decided and recorded, one reading of the clock a step, and left this behind. */
  ghost predicate Ran(c: Case) {
    WellShaped(c.counted, c.iterationBounds, c.durationBounds) &&
    c.outcome == Decide(c.w, c.max).outcome && c.steps == StepsOf(c.w, c.max, c.start, c.tick) &&
    c.written == c.start + |c.steps| * c.tick &&
    c.left == WriteAftermath(c.before, c.counted, c.id, c.outcome, c.steps, c.written, c.iterationBounds,
                             c.durationBounds)
  }

  /** Write once, then count: a run whose write fails is not counted. */
  method Commit(id: string, outcome: Outcome, steps: seq<TraceStep>, repository: SqliteRepository, registry: Registry)
    returns (r: Result<(), PipelineError>)
    requires registry.Valid()
    modifies repository, repository.clock, registry.tickets, registry.handoffs, registry.violations, registry.tools,
             registry.iterations, registry.durations
    ensures registry.Valid() && WellShaped(old(registry.Value()), registry.iterations.bounds, registry.durations.bounds)
    ensures Aftermath(r, repository.Data(), registry.Value()) ==
            WriteAftermath(old(repository.Data()), old(registry.Value()), id, outcome, steps,
              old(repository.clock.next), registry.iterations.bounds, registry.durations.bounds)
    ensures r.Failure? ==> repository.Data() == old(repository.Data()) && registry.Value() == old(registry.Value())
  {
    var written := repository.Finalise(id, ResolutionOf(outcome), steps);
    if written.Failure? {
      return Failure(StoreFailed(written.error));
    }
    registry.RecordRun(Finished(outcome.status, outcome.reason, steps));
    return Success(());
  }

  /** From the decision to the count. Store and recorder share one clock, as the application
      wires them. */
  method RunTicket(id: string, repository: SqliteRepository, registry: Registry, w: World, max: int)
    returns (r: Result<(), PipelineError>, ghost c: Case)
    requires registry.Valid()
    modifies repository, repository.clock, registry.tickets, registry.handoffs, registry.violations, registry.tools,
             registry.iterations, registry.durations
    ensures registry.Valid() && Ran(c) && c.w == w && c.max == max && c.id == id
    ensures c.start == old(repository.clock.next) && c.tick == repository.clock.tick
    ensures c.before == old(repository.Data()) && c.counted == old(registry.Value())
    ensures c.iterationBounds == registry.iterations.bounds && c.durationBounds == registry.durations.bounds
    ensures c.left == Aftermath(r, repository.Data(), registry.Value())
    ensures r.Failure? ==> repository.Data() == old(repository.Data()) && registry.Value() == old(registry.Value())
  {
    ghost var start := repository.clock.next;
    var outcome, steps := DecideAndRecord(w, max, repository.clock);
    ghost var written, before, counted := repository.clock.next, repository.Data(), registry.Value();
    r := Commit(id, outcome, steps, repository, registry);
    c := Case(w, max, id, outcome, steps, start, repository.clock.tick, written, before, counted,
              registry.iterations.bounds, registry.durations.bounds,
              Aftermath(r, repository.Data(), registry.Value()));
  }

  /** The whole of one ticket's processing. `agent` is what the model, the tools and the
      templates do for a given ticket. */
  method RunPipeline(id: string, repository: SqliteRepository, registry: Registry, agent: Ticket -> World, max: int)
    returns (r: Result<(), PipelineError>, ghost ran: Option<Case>)
    requires registry.Valid()
    modifies repository, repository.clock, registry.tickets, registry.handoffs, registry.violations, registry.tools,
             registry.iterations, registry.durations
    ensures registry.Valid()
    ensures var found := TableGet(old(repository.Data()), id);
            if found.Success? && found.value.Some? then
              ran.Some? && Ran(ran.value) && ran.value.w == agent(found.value.value)
            else ran.None? && r == Failure(if found.Failure? then StoreFailed(found.error) else NoTicket(id))
    ensures ran.Some? ==>
              var c := ran.value;
              c.max == max && c.id == id && c.start == old(repository.clock.next) && c.tick == repository.clock.tick &&
              c.before == old(repository.Data()) && c.counted == old(registry.Value()) &&
              c.iterationBounds == registry.iterations.bounds && c.durationBounds == registry.durations.bounds &&
              c.left == Aftermath(r, repository.Data(), registry.Value())
    ensures r.Failure? ==> repository.Data() == old(repository.Data()) && registry.Value() == old(registry.Value())
  {
    ran := None;
    var found := repository.Get(id);
    if found.Failure? {
      r := Failure(StoreFailed(found.error));
      return;
    }
    if found.value.None? {
      r := Failure(NoTicket(id));
      return;
    }
    ghost var c;
    r, c := RunTicket(id, repository, registry, agent(found.value.value), max);
    ran := Some(c);
  }

  /** The run with its recorder, ending in the final decision. */
  method DecideAndRecord(w: World, max: int, clock: FrozenClock) returns (outcome: Outcome, steps: seq<TraceStep>)
    modifies clock
    ensures outcome == Decide(w, max).outcome
    ensures steps == StepsOf(w, max, old(clock.next), clock.tick)
    ensures clock.next == old(clock.next) + |steps| * clock.tick
  {
    var trace := new TraceRecorder(clock);
    ghost var start := clock.next;
    outcome := DecideTicket(w, max, trace);
    OutcomesArePaired(w, max);
    Add(trace, Final(outcome), [], start, Decide(w, max).events);
    steps := trace.steps;
    assert [] + Stamp(TraceOf(w, max), 0, start, clock.tick) == Stamp(TraceOf(w, max), 0, start, clock.tick);
  }

  // ---------------------------------------------------------------------------------
  // What a run writes is always accepted
  // ---------------------------------------------------------------------------------

  predicate AllCoherent(events: seq<Event>) {
    forall e | e in events :: e.Coherent()
  }

  lemma CallCoherent(i: int, tool: string, args: Fields, called: Result<(ToolResult, Fields), Exn>)
    requires i >= 1
    ensures AllCoherent(CallEvents(i, tool, args, called))
  {
  }

  lemma GroundCoherent(w: World, template: ReplyTemplate, history: seq<Observation>)
    ensures AllCoherent(Ground(w, template, history).events)
  {
  }

  lemma TurnCoherent(w: World, i: int, history: seq<Observation>)
    requires i >= 1
    ensures AllCoherent(TakeTurn(w, i, history).events)
  {
    match w.decide(i, history)
    case Failure(_) =>
    case Success(ToolCall(tool, args)) => CallCoherent(i, tool, args, RunTool(w, i, tool, args));
    case Success(Reply(template)) => GroundCoherent(w, template, history);
    case Success(Handoff(_)) =>
  }

  lemma JoinCoherent(a: seq<Event>, b: seq<Event>)
    requires AllCoherent(a) && AllCoherent(b)
    ensures AllCoherent(a + b)
  {
  }

  lemma CapCoherent(w: World, i: int, max: int, history: seq<Observation>, run: Run)
    requires i > max && run == Loop(w, i, max, history)
    ensures AllCoherent(run.events)
  {
  }

  lemma EndCoherent(w: World, i: int, max: int, history: seq<Observation>, run: Run)
    requires 1 <= i <= max && run == Loop(w, i, max, history) && TakeTurn(w, i, history).Ended?
    ensures AllCoherent(run.events)
  {
    TurnCoherent(w, i, history);
    LoopTurn(w, i, max, history, TakeTurn(w, i, history));
  }

  lemma MoreCoherent(w: World, i: int, max: int, history: seq<Observation>, turn: Turn, next: seq<Observation>,
                     more: Run, run: Run)
    requires 1 <= i <= max && run == Loop(w, i, max, history) && turn == TakeTurn(w, i, history) && turn.Went?
    requires next == history + [turn.observed] && more == Loop(w, i + 1, max, next) && AllCoherent(more.events)
    ensures AllCoherent(run.events)
  {
    TurnCoherent(w, i, history);
    LoopTurn(w, i, max, history, turn);
    JoinCoherent(turn.events, more.events);
  }

  lemma {:induction false} LoopCoherent(w: World, i: int, max: int, history: seq<Observation>, run: Run)
    requires i >= 1 && run == Loop(w, i, max, history)
    ensures AllCoherent(run.events)
    decreases if i <= max then max - i + 1 else 0
  {
    if i > max {
      CapCoherent(w, i, max, history, run);
    } else {
      var turn := TakeTurn(w, i, history);
      if turn.Went? {
        var next := history + [turn.observed];
        var more := Loop(w, i + 1, max, next);
        LoopCoherent(w, i + 1, max, next, more);
        MoreCoherent(w, i, max, history, turn, next, more, run);
      } else {
        EndCoherent(w, i, max, history, run);
      }
    }
  }

  lemma DecideCoherent(w: World, max: int, run: Run)
    requires run == Decide(w, max)
    ensures AllCoherent(run.events)
  {
    if w.classify.Success? && w.classify.value.intent != UnknownIntent {
      LoopCoherent(w, 1, max, [], Loop(w, 1, max, []));
    }
  }

  /** Every step the orchestrator builds can be built. */
  lemma TraceCoherent(w: World, max: int)
    ensures AllCoherent(TraceOf(w, max))
  {
    DecideCoherent(w, max, Decide(w, max));
    OutcomesArePaired(w, max);
  }

  /** Steps that record `events` and are numbered from 1. */
  predicate Records(steps: seq<TraceStep>, events: seq<Event>) {
    EventsOf(steps) == events && Numbered(steps)
  }

  lemma RecordedStepsStore(steps: seq<TraceStep>, events: seq<Event>)
    requires Records(steps, events) && AllCoherent(events)
    ensures ValidTrace(steps) && Distinct(steps) && SortBy(steps, Number) == steps
  {
    forall s | s in steps ensures ValidStep(s) {
      var k :| 0 <= k < |steps| && steps[k] == s;
      assert EventsOf(steps)[k] in events;
    }
    AscendingIsSorted(steps, steps);
  }

  /** Whatever a run decides, the store takes it: the CHECK holds, the steps are valid and
      their numbers distinct; and the ticket's own validator agrees, unless a template rendered
      an empty reply. */
  lemma WritesAreProper(w: World, max: int, steps: seq<TraceStep>)
    requires Records(steps, TraceOf(w, max))
    ensures ValidTrace(steps) && Distinct(steps) && SortBy(steps, Number) == steps
    ensures var r := ResolutionOf(Decide(w, max).outcome);
            r.Checked() && r.status != Processing && (r.Coherent() <==> r.reply != Some(""))
  {
    TraceCoherent(w, max);
    RecordedStepsStore(steps, TraceOf(w, max));
    OutcomesArePaired(w, max);
  }

  /** The write of a run on a stored ticket succeeds and leaves every other ticket. */
  lemma RunIsStored(db: Tables, id: string, w: World, max: int, now: int, steps: seq<TraceStep>, r: Resolution)
    requires WellKept(db) && id in db.tickets && Records(steps, TraceOf(w, max)) &&
             r == ResolutionOf(Decide(w, max).outcome)
    ensures ValidTrace(steps) && SortBy(steps, Number) == steps && (r.Coherent() <==> r.reply != Some(""))
    ensures var written := TableFinalise(db, now, id, r, steps);
            written.Success? && WellKept(written.value) &&
            written.value.tickets == db.tickets[id := db.tickets[id].(resolution := r, updatedAt := now)]
  {
    WritesAreProper(w, max, steps);
    InsertAllExact(Without(db.steps, id), id, steps);
    KeepsWell(db, now, id, r, steps);
  }

  /** A run that is written is read back whole: reading its ticket returns the request it was run
      for, the outcome decided and the complete trace -- unless a template rendered an empty
      reply, which cannot be read -- and every other ticket reads as before. */
  lemma RunReadsBack(db: Tables, id: string, w: World, max: int, now: int, steps: seq<TraceStep>, other: string)
    requires WellKept(db) && id in db.tickets && Records(steps, TraceOf(w, max))
    ensures var r := ResolutionOf(Decide(w, max).outcome);
            var row := db.tickets[id];
            var written := TableFinalise(db, now, id, r, steps);
            written.Success? && WellKept(written.value) &&
            (other != id ==> TableGet(written.value, other) == TableGet(db, other)) &&
            TableGet(written.value, id) ==
              if r.reply == Some("") then Failure(Invalid)
              else Success(Some(Ticket(id, row.request, r, row.createdAt, now, steps)))
  {
    var r := ResolutionOf(Decide(w, max).outcome);
    RunIsStored(db, id, w, max, now, steps, r);
    FinaliseSeen(db, now, id, r, steps, other);
    FinaliseSeen(db, now, id, r, steps, id);
  }

  // ---------------------------------------------------------------------------------
  // What a run leaves
  // ---------------------------------------------------------------------------------

  /** The request of a ticket with the outcome and the steps of its run, under `id`; or no way to
      read it, if a template rendered an empty reply. Every other ticket reads as before. */
  ghost predicate ReadsBack(before: Tables, after: Tables, id: string, r: Resolution, steps: seq<TraceStep>, now: int)
    requires id in before.tickets
  {
    var row := before.tickets[id];
    after.tickets == before.tickets[id := row.(resolution := r, updatedAt := now)] &&
    TraceIn(after, id) == Some(steps) &&
    TableGet(after, id) == (if r.reply == Some("") then Failure(Invalid)
                            else Success(Some(Ticket(id, row.request, r, row.createdAt, now, steps)))) &&
    forall other :: other != id ==> TableGet(after, other) == TableGet(before, other)
  }

  /** What readers find after a run: its outcome and its complete trace in the store, and this one
      run more in the registry. */
  ghost predicate LeftWhole(c: Case) {
    var finished := Finished(c.outcome.status, c.outcome.reason, c.steps);
    c.outcome == Decide(c.w, c.max).outcome && Records(c.steps, TraceOf(c.w, c.max)) &&
    c.left.answer == Success(()) && WellKept(c.left.stored) && c.id in c.before.tickets &&
    ReadsBack(c.before, c.left.stored, c.id, Resolution(c.outcome.status, c.outcome.reply, c.outcome.reason), c.steps,
      c.written) &&
    WellShaped(c.counted, c.iterationBounds, c.durationBounds) &&
    CountsOne(c.counted, c.left.counts, finished) &&
    ObservesOne(c.counted, c.left.counts, finished, c.iterationBounds, c.durationBounds)
  }

  lemma WriteReadsBack(db: Tables, id: string, w: World, max: int, now: int, steps: seq<TraceStep>, r: Resolution)
    requires WellKept(db) && id in db.tickets && Records(steps, TraceOf(w, max))
    requires r == ResolutionOf(Decide(w, max).outcome)
    ensures var written := TableFinalise(db, now, id, r, steps);
            written.Success? && WellKept(written.value) && ReadsBack(db, written.value, id, r, steps, now)
  {
    RunIsStored(db, id, w, max, now, steps, r);
    FinaliseTraces(db, now, id, r, steps, id);
    RunReadsBack(db, id, w, max, now, steps, id);
    forall other | other != id
      ensures TableGet(TableFinalise(db, now, id, r, steps).value, other) == TableGet(db, other)
    {
      RunReadsBack(db, id, w, max, now, steps, other);
    }
  }

  lemma StampRecords(events: seq<Event>, start: int, tick: int, steps: seq<TraceStep>)
    requires steps == Stamp(events, 0, start, tick)
    ensures Records(steps, events)
  {
  }

  /** What the write and the count of a run come to. */
  lemma RanCommits(c: Case)
    requires Ran(c)
    ensures Records(c.steps, TraceOf(c.w, c.max))
    ensures var written := TableFinalise(c.before, c.written, c.id, ResolutionOf(c.outcome), c.steps);
            var finished := Finished(c.outcome.status, c.outcome.reason, c.steps);
            written.Success? ==>
              c.left.answer == Success(()) && c.left.stored == written.value &&
              c.left.counts == ApplyAll(c.counted, RunUpdates(finished), c.iterationBounds, c.durationBounds)
  {
    StampRecords(TraceOf(c.w, c.max), c.start, c.tick, c.steps);
  }

  /** Every run on a ticket of a well-kept store succeeds and leaves exactly that. */
  lemma RunLeaves(c: Case)
    requires Ran(c) && WellKept(c.before) && c.id in c.before.tickets
    ensures LeftWhole(c)
  {
    RanCommits(c);
    WriteReadsBack(c.before, c.id, c.w, c.max, c.written, c.steps, ResolutionOf(c.outcome));
    RunTakenIn(c.counted, Finished(c.outcome.status, c.outcome.reason, c.steps), c.iterationBounds, c.durationBounds);
  }
}

/**
 The whole service as interleaved steps: any number of tickets posted, scheduled, decided,
 written and counted at once, with writes that fail and a process that may die.
 */
module Service {
  import opened Text
  import opened Wrappers
  import opened Domain
  import opened FactSets
  import opened Grounding
  import opened Trace
  import opened Orchestrator
  import opened TraceGrammar
  import opened RunFacts
  import opened Sorting
  import opened Tickets
  import opened Stores
  import opened StoreRefinement
  import opened Metrics
  import opened Pipeline

  /** Where one background run has got to. */
  datatype Job =
    | Accepted
    | Scheduled
    | Decided(outcome: Outcome, steps: seq<TraceStep>)
    | Counting(pending: seq<Update>)

  /** What was written for a ticket. */
  datatype RunRecord = RunRecord(outcome: Outcome, steps: seq<TraceStep>)

  /** The store survives the process; jobs and counters do not. The rest is history: `runs` is
      what was written for each ticket and `order` in which order; `counted` are the tickets the
      counters of this process include and `made` the updates that led to them. */
  datatype State = State(db: Tables, jobs: map<string, Job>, totals: Totals, runs: map<string, RunRecord>,
                         order: seq<string>, counted: set<string>, made: seq<Update>, deaths: nat)

  const START := State(EMPTY, map[], NO_TOTALS, map[], [], {}, [], 0)

  /** The cap, and the bounds of the two histograms. */
  datatype Config = Config(max: int, iterationBounds: seq<real>, durationBounds: seq<real>)

  datatype Move =
    | Post(t: Ticket)
    | Schedule(id: string)
    | Run(id: string, w: World, steps: seq<TraceStep>)
    | Write(id: string, now: int)
    | WriteFails(id: string)
    | CountNext(id: string)
    | Die

  predicate Fits(s: State, c: Config) { WellShaped(s.totals, c.iterationBounds, c.durationBounds) }

  /** A move that can happen. The clock is shared, so a run's times are arbitrary; its steps
      are the trace of whatever the model, tools and templates did, under the real checker. */
  ghost predicate Enabled(s: State, move: Move, c: Config) {
    Fits(s, c) &&
    match move
    case Post(t) => t.Valid() && t.resolution == OPEN
    case Schedule(id) => id in s.jobs && s.jobs[id] == Accepted
    case Run(id, w, steps) => id in s.jobs && s.jobs[id] == Scheduled && Genuine(w) && Records(steps, TraceOf(w, c.max))
    case Write(id, _) => id in s.jobs && s.jobs[id].Decided?
    case WriteFails(id) => id in s.jobs && s.jobs[id].Decided?
    case CountNext(id) => id in s.jobs && s.jobs[id].Counting?
    case Die => true
  }

  /** Persisted first, scheduled second: a post that fails leaves nothing. */
  function Posted(s: State, t: Ticket): State {
    match TableCreate(s.db, t)
    case Success(db) => s.(db := db, jobs := s.jobs[t.id := Accepted])
    case Failure(_) => s
  }

  function Written(s: State, id: string, now: int): State
    requires id in s.jobs && s.jobs[id].Decided?
  {
    var Decided(outcome, steps) := s.jobs[id];
    match TableFinalise(s.db, now, id, ResolutionOf(outcome), steps)
    case Success(db) =>
      s.(db := db, jobs := s.jobs[id := Counting(RunUpdates(Finished(outcome.status, outcome.reason, steps)))],
         runs := s.runs[id := RunRecord(outcome, steps)], order := s.order + [id])
    case Failure(_) => s.(jobs := s.jobs - {id})
  }

  function Counted(s: State, id: string, c: Config): State
    requires Fits(s, c) && id in s.jobs && s.jobs[id].Counting?
  {
    var pending := s.jobs[id].pending;
    if pending == [] then s.(jobs := s.jobs - {id})
    else
      s.(totals := Apply(s.totals, pending[0], c.iterationBounds, c.durationBounds),
         counted := if pending[0].TicketInc? then s.counted + {id} else s.counted, made := s.made + [pending[0]],
         jobs := s.jobs[id := Counting(pending[1..])])
  }

  ghost function Next(s: State, move: Move, c: Config): State
    requires Enabled(s, move, c)
  {
    match move
    case Post(t) => Posted(s, t)
    case Schedule(id) => s.(jobs := s.jobs[id := Scheduled])
    case Run(id, w, steps) => s.(jobs := s.jobs[id := Decided(Decide(w, c.max).outcome, steps)])
    case Write(id, now) => Written(s, id, now)
    case WriteFails(id) => s.(jobs := s.jobs - {id})
    case CountNext(id) => Counted(s, id, c)
    case Die => s.(jobs := map[], totals := NO_TOTALS, counted := {}, made := [], deaths := s.deaths + 1)
  }

  // ---------------------------------------------------------------------------------
  // The invariant
  // ---------------------------------------------------------------------------------

  /** The run of `w` decided `outcome` and recorded `steps`. */
  ghost predicate RunOf(w: World, outcome: Outcome, steps: seq<TraceStep>, max: int) {
    Genuine(w) && Records(steps, TraceOf(w, max)) && outcome == Decide(w, max).outcome
  }

  /** The outcome and the trace are those of one run. */
  ghost predicate OfOneRun(outcome: Outcome, steps: seq<TraceStep>, max: int) {
    exists w :: RunOf(w, outcome, steps, max)
  }

  /** The complete trace of a single run, ending in the decision it was written with. */
  ghost predicate Complete(outcome: Outcome, steps: seq<TraceStep>, max: int) {
    var events := EventsOf(steps);
    OfOneRun(outcome, steps, max) &&
    Paired(outcome) && Numbered(steps) && AllCoherent(events) && Accepts(events, max) &&
    events != [] && events[|events| - 1] == Final(outcome)
  }

  /** A stored ticket is either untouched, or carries one complete run. */
  ghost predicate Kept(db: Tables, runs: map<string, RunRecord>, id: string, max: int)
    requires id in db.tickets
  {
    if id in runs then
      Complete(runs[id].outcome, runs[id].steps, max) &&
      db.tickets[id].resolution == ResolutionOf(runs[id].outcome) && TraceIn(db, id) == Some(runs[id].steps)
    else db.tickets[id].resolution == OPEN && TraceIn(db, id) == Some([])
  }

  ghost predicate EachKept(db: Tables, runs: map<string, RunRecord>, max: int) {
    forall id :: id in db.tickets ==> Kept(db, runs, id, max)
  }

  ghost predicate AllKept(db: Tables, runs: map<string, RunRecord>, max: int) {
    WellKept(db) && runs.Keys <= db.tickets.Keys && EachKept(db, runs, max)
  }

  predicate TicketPending(pending: seq<Update>) { pending != [] && pending[0].TicketInc? }

  /** What is still to be counted of a written run: everything, its ticket first, or a rest
      without it. */
  ghost predicate ToCount(pending: seq<Update>, run: RunRecord, isCounted: bool) {
    (TicketPending(pending) ==> !isCounted && pending[0] == TicketInc(run.outcome.status)) &&
    forall k :: 0 < k < |pending| ==> !pending[k].TicketInc?
  }

  /** A job counts exactly if its ticket's run was written. */
  ghost predicate Going(job: Job, runs: map<string, RunRecord>, counted: set<string>, id: string, max: int) {
    match job
    case Accepted => id !in runs
    case Scheduled => id !in runs
    case Decided(outcome, steps) => id !in runs && Complete(outcome, steps, max)
    case Counting(pending) => id in runs && ToCount(pending, runs[id], id in counted)
  }

  ghost predicate AllGoing(ids: set<string>, jobs: map<string, Job>, runs: map<string, RunRecord>, counted: set<string>,
                           max: int) {
    jobs.Keys <= ids && forall id :: id in jobs ==> Going(jobs[id], runs, counted, id, max)
  }

  function WithStatus(ids: set<string>, runs: map<string, RunRecord>, status: TicketStatus): set<string> {
    set id | id in ids && id in runs && runs[id].outcome.status == status
  }

  /** The counter of a status is the number of counted tickets in it. */
  ghost predicate Tallied(tickets: map<TicketStatus, nat>, counted: set<string>, runs: map<string, RunRecord>) {
    counted <= runs.Keys && forall status :: Count(tickets, status) == |WithStatus(counted, runs, status)|
  }

  /** A written ticket the counters do not include is about to be. */
  ghost predicate Awaited(jobs: map<string, Job>, runs: map<string, RunRecord>, counted: set<string>) {
    forall id :: id in runs && id !in counted ==> id in jobs && jobs[id].Counting? && TicketPending(jobs[id].pending)
  }

  ghost predicate Invariant(s: State, c: Config) {
    Fits(s, c) && AllKept(s.db, s.runs, c.max) && AllGoing(s.db.tickets.Keys, s.jobs, s.runs, s.counted, c.max) &&
    Tallied(s.totals.tickets, s.counted, s.runs) && (s.deaths == 0 ==> Awaited(s.jobs, s.runs, s.counted))
  }

  lemma NothingTallied(runs: map<string, RunRecord>)
    ensures Tallied(map[], {}, runs)
  {
    forall status ensures |WithStatus({}, runs, status)| == 0 {
      assert WithStatus({}, runs, status) == {};
    }
  }

  lemma StartHolds(c: Config)
    ensures Invariant(START, c)
  {
    NothingTallied(map[]);
  }

  // ---------------------------------------------------------------------------------
  // Every move keeps it
  // ---------------------------------------------------------------------------------

  /** What is kept of a ticket depends on its row, its steps and its run. */
  lemma KeptSame(db: Tables, after: Tables, runs: map<string, RunRecord>, more: map<string, RunRecord>, id: string,
                 max: int)
    requires id in db.tickets && Kept(db, runs, id, max)
    requires id in after.tickets && after.tickets[id] == db.tickets[id] && TraceIn(after, id) == TraceIn(db, id)
    requires (id in more <==> id in runs) && (id in runs ==> more[id] == runs[id])
    ensures Kept(after, more, id, max)
  {
  }

  lemma NewTicketKept(db: Tables, after: Tables, runs: map<string, RunRecord>, t: Ticket, max: int)
    requires AllKept(db, runs, max) && t.Valid() && t.resolution == OPEN && TableCreate(db, t) == Success(after)
    ensures AllKept(after, runs, max)
  {
    assert KeysOf(after.steps, t.id) == {};
    forall id | id in after.tickets ensures Kept(after, runs, id, max) {
      if id != t.id { KeptSame(db, after, runs, runs, id, max); }
    }
  }

  lemma JobSet(ids: set<string>, jobs: map<string, Job>, runs: map<string, RunRecord>, counted: set<string>, max: int,
               id: string, job: Job)
    requires AllGoing(ids, jobs, runs, counted, max) && Going(job, runs, counted, id, max)
    ensures AllGoing(ids + {id}, jobs[id := job], runs, counted, max)
    ensures id !in runs && Awaited(jobs, runs, counted) ==> Awaited(jobs[id := job], runs, counted)
  {
    var after := jobs[id := job];
    forall other | other in after ensures Going(after[other], runs, counted, other, max) {
      if other != id { assert Going(jobs[other], runs, counted, other, max); }
    }
  }

  lemma JobGone(ids: set<string>, jobs: map<string, Job>, runs: map<string, RunRecord>, counted: set<string>, max: int,
                id: string)
    requires AllGoing(ids, jobs, runs, counted, max) && id in jobs
    requires jobs[id].Counting? ==> !TicketPending(jobs[id].pending)
    ensures AllGoing(ids, jobs - {id}, runs, counted, max)
    ensures Awaited(jobs, runs, counted) ==> Awaited(jobs - {id}, runs, counted)
  {
    var after := jobs - {id};
    forall other | other in after ensures Going(after[other], runs, counted, other, max) {
      assert Going(jobs[other], runs, counted, other, max);
    }
  }

  lemma CreatedKeys(db: Tables, after: Tables, t: Ticket)
    requires TableCreate(db, t) == Success(after)
    ensures t.id !in db.tickets && after.tickets.Keys == db.tickets.Keys + {t.id}
  {
  }

  /** A state that differs in its store and jobs only. */
  lemma StoreAndJobsChange(s: State, db: Tables, jobs: map<string, Job>, c: Config)
    requires Invariant(s, c) && AllKept(db, s.runs, c.max) && AllGoing(db.tickets.Keys, jobs, s.runs, s.counted, c.max)
    requires s.deaths == 0 ==> Awaited(jobs, s.runs, s.counted)
    ensures Invariant(s.(db := db, jobs := jobs), c)
  {
  }

  lemma PostKeeps(s: State, t: Ticket, c: Config)
    requires Invariant(s, c) && t.Valid() && t.resolution == OPEN
    ensures Invariant(Posted(s, t), c)
  {
    if TableCreate(s.db, t).Success? {
      var db := TableCreate(s.db, t).value;
      CreatedKeys(s.db, db, t);
      NewTicketKept(s.db, db, s.runs, t, c.max);
      assert Going(Accepted, s.runs, s.counted, t.id, c.max);
      JobSet(s.db.tickets.Keys, s.jobs, s.runs, s.counted, c.max, t.id, Accepted);
      StoreAndJobsChange(s, db, s.jobs[t.id := Accepted], c);
    }
  }

  /** A move that only advances the job of `id`, before its run is written. */
  lemma AdvanceKeeps(s: State, id: string, job: Job, c: Config)
    requires Invariant(s, c) && id in s.jobs && !s.jobs[id].Counting?
    requires !job.Counting? && (job.Decided? ==> Complete(job.outcome, job.steps, c.max))
    ensures Invariant(s.(jobs := s.jobs[id := job]), c)
  {
    JobAdvances(s.db.tickets.Keys, s.jobs, s.runs, s.counted, c.max, id, job);
    StoreAndJobsChange(s, s.db, s.jobs[id := job], c);
  }

  lemma JobAdvances(ids: set<string>, jobs: map<string, Job>, runs: map<string, RunRecord>, counted: set<string>,
                    max: int, id: string, job: Job)
    requires AllGoing(ids, jobs, runs, counted, max) && id in jobs && !jobs[id].Counting?
    requires !job.Counting? && (job.Decided? ==> Complete(job.outcome, job.steps, max))
    ensures AllGoing(ids, jobs[id := job], runs, counted, max)
    ensures Awaited(jobs, runs, counted) ==> Awaited(jobs[id := job], runs, counted)
  {
    assert Going(jobs[id], runs, counted, id, max);
    NotWritten(jobs[id], job, runs, counted, id, max);
    JobSet(ids, jobs, runs, counted, max, id, job);
    assert ids + {id} == ids;
  }

  lemma NotWritten(job: Job, next: Job, runs: map<string, RunRecord>, counted: set<string>, id: string, max: int)
    requires Going(job, runs, counted, id, max) && !job.Counting?
    requires !next.Counting? && (next.Decided? ==> Complete(next.outcome, next.steps, max))
    ensures id !in runs && Going(next, runs, counted, id, max)
  {
  }

  lemma DropKeeps(s: State, id: string, c: Config)
    requires Invariant(s, c) && id in s.jobs && (s.jobs[id].Counting? ==> !TicketPending(s.jobs[id].pending))
    ensures Invariant(s.(jobs := s.jobs - {id}), c)
  {
    JobGone(s.db.tickets.Keys, s.jobs, s.runs, s.counted, c.max, id);
  }

  // Writing ---------------------------------------------------------------------------

  /** The ticket row and the steps under `other`, after a write for `id`. */
  ghost predicate WrittenAt(db: Tables, after: Tables, id: string, run: RunRecord, now: int, other: string)
    requires id in db.tickets
  {
    (other in after.tickets <==> other in db.tickets) &&
    (other in after.tickets ==>
      after.tickets[other] == if other != id then db.tickets[other]
                              else db.tickets[id].(resolution := ResolutionOf(run.outcome), updatedAt := now)) &&
    TraceIn(after, other) == if other == id then Some(run.steps) else TraceIn(db, other)
  }

  lemma CompleteStores(run: RunRecord, max: int)
    requires Complete(run.outcome, run.steps, max)
    ensures ValidTrace(run.steps) && Distinct(run.steps) && SortBy(run.steps, Number) == run.steps
    ensures ResolutionOf(run.outcome).Checked()
  {
    RecordedStepsStore(run.steps, EventsOf(run.steps));
  }

  lemma FinaliseWrites(db: Tables, id: string, run: RunRecord, now: int, r: Resolution, after: Tables, other: string)
    requires WellKept(db) && id in db.tickets && ValidTrace(run.steps) && SortBy(run.steps, Number) == run.steps
    requires r == ResolutionOf(run.outcome) && TableFinalise(db, now, id, r, run.steps) == Success(after)
    ensures WrittenAt(db, after, id, run, now, other)
  {
    FinaliseTraces(db, now, id, r, run.steps, other);
  }

  lemma WriteSucceeds(db: Tables, id: string, run: RunRecord, now: int, max: int) returns (after: Tables)
    requires WellKept(db) && id in db.tickets && Complete(run.outcome, run.steps, max)
    ensures TableFinalise(db, now, id, ResolutionOf(run.outcome), run.steps) == Success(after) && WellKept(after)
    ensures forall other :: WrittenAt(db, after, id, run, now, other)
  {
    CompleteStores(run, max);
    after := WriteAccepted(db, id, run, now, ResolutionOf(run.outcome));
  }

  lemma WriteAccepted(db: Tables, id: string, run: RunRecord, now: int, r: Resolution) returns (after: Tables)
    requires WellKept(db) && id in db.tickets && r == ResolutionOf(run.outcome) && r.Checked()
    requires ValidTrace(run.steps) && Distinct(run.steps) && SortBy(run.steps, Number) == run.steps
    ensures TableFinalise(db, now, id, r, run.steps) == Success(after) && WellKept(after)
    ensures forall other :: WrittenAt(db, after, id, run, now, other)
  {
    InsertAllExact(Without(db.steps, id), id, run.steps);
    after := TableFinalise(db, now, id, r, run.steps).value;
    KeepsWell(db, now, id, r, run.steps);
    forall other ensures WrittenAt(db, after, id, run, now, other) {
      FinaliseWrites(db, id, run, now, r, after, other);
    }
  }

  lemma KeptElsewhere(db: Tables, after: Tables, runs: map<string, RunRecord>, id: string, run: RunRecord, now: int,
                      max: int, other: string)
    requires id in db.tickets && other in db.tickets && other != id && Kept(db, runs, other, max)
    requires WrittenAt(db, after, id, run, now, other)
    ensures Kept(after, runs[id := run], other, max)
  {
    KeptSame(db, after, runs, runs[id := run], other, max);
  }

  lemma KeptHere(db: Tables, after: Tables, runs: map<string, RunRecord>, id: string, run: RunRecord, now: int,
                 max: int)
    requires id in db.tickets && Complete(run.outcome, run.steps, max) && WrittenAt(db, after, id, run, now, id)
    ensures id in after.tickets && Kept(after, runs[id := run], id, max)
  {
    KeptNow(after, runs[id := run], id, run, max);
  }

  lemma EachWrittenKept(db: Tables, after: Tables, runs: map<string, RunRecord>, id: string, run: RunRecord, now: int,
                        max: int)
    requires EachKept(db, runs, max) && id in db.tickets && Complete(run.outcome, run.steps, max)
    requires after.tickets.Keys == db.tickets.Keys && forall other :: WrittenAt(db, after, id, run, now, other)
    ensures EachKept(after, runs[id := run], max)
  {
    forall other | other in after.tickets ensures Kept(after, runs[id := run], other, max) {
      if other == id {
        KeptHere(db, after, runs, id, run, now, max);
      } else {
        KeptElsewhere(db, after, runs, id, run, now, max, other);
      }
    }
  }

  lemma WrittenKept(db: Tables, after: Tables, runs: map<string, RunRecord>, id: string, run: RunRecord, now: int,
                    max: int)
    requires AllKept(db, runs, max) && id in db.tickets && WellKept(after) && Complete(run.outcome, run.steps, max)
    requires after.tickets.Keys == db.tickets.Keys && forall other :: WrittenAt(db, after, id, run, now, other)
    ensures AllKept(after, runs[id := run], max)
  {
    EachWrittenKept(db, after, runs, id, run, now, max);
  }

  lemma KeptNow(after: Tables, more: map<string, RunRecord>, id: string, run: RunRecord, max: int)
    requires id in more && more[id] == run && Complete(run.outcome, run.steps, max)
    requires id in after.tickets && after.tickets[id].resolution == ResolutionOf(run.outcome)
    requires TraceIn(after, id) == Some(run.steps)
    ensures Kept(after, more, id, max)
  {
  }

  /** The updates of a run count its ticket first, and once. */
  lemma TicketFirst(run: Finished)
    ensures var us := RunUpdates(run);
            us != [] && us[0] == TicketInc(run.status) && forall k :: 0 < k < |us| ==> !us[k].TicketInc?
  {
    TraceCountsNoTicket(EventsOf(run.steps));
    var head := OutcomeUpdates(run.status, run.reason) + [IterationsSeen(Decisions(EventsOf(run.steps)))];
    var rest := TraceUpdates(EventsOf(run.steps)) + DurationUpdates(run);
    assert RunUpdates(run) == head + rest;
    assert forall u :: u in rest ==> !u.TicketInc?;
  }

  lemma {:induction false} TraceCountsNoTicket(events: seq<Event>)
    ensures forall u :: u in TraceUpdates(events) ==> !u.TicketInc?
  {
    if events == [] {
    } else {
      TraceCountsNoTicket(events[..|events| - 1]);
      StepCountsNoTicket(events[|events| - 1]);
    }
  }

  lemma StepCountsNoTicket(e: Event)
    ensures forall u :: u in StepUpdates(e) ==> !u.TicketInc?
  {
    if e.GroundingChecked? { ViolationsCountNoTicket(e.violations); }
  }

  lemma {:induction false} ViolationsCountNoTicket(found: seq<Violation>)
    ensures forall u :: u in ViolationUpdates(found) ==> !u.TicketInc?
  {
    if found == [] {
    } else {
      ViolationsCountNoTicket(found[..|found| - 1]);
    }
  }

  lemma RunAdded(ids: set<string>, jobs: map<string, Job>, runs: map<string, RunRecord>, counted: set<string>, max: int,
                 id: string, run: RunRecord, pending: seq<Update>)
    requires AllGoing(ids, jobs, runs, counted, max) && id in ids && id !in runs && counted <= runs.Keys
    requires pending != [] && pending[0] == TicketInc(run.outcome.status)
    requires forall k :: 0 < k < |pending| ==> !pending[k].TicketInc?
    ensures AllGoing(ids, jobs[id := Counting(pending)], runs[id := run], counted, max)
    ensures Awaited(jobs, runs, counted) ==> Awaited(jobs[id := Counting(pending)], runs[id := run], counted)
  {
    var after, more := jobs[id := Counting(pending)], runs[id := run];
    forall other | other in after ensures Going(after[other], more, counted, other, max) {
      if other != id { assert Going(jobs[other], runs, counted, other, max); }
    }
  }

  lemma StatusesSame(tickets: map<TicketStatus, nat>, counted: set<string>, runs: map<string, RunRecord>, id: string,
                     run: RunRecord)
    requires Tallied(tickets, counted, runs) && id !in runs
    ensures Tallied(tickets, counted, runs[id := run])
  {
    forall status ensures Count(tickets, status) == |WithStatus(counted, runs[id := run], status)| {
      assert WithStatus(counted, runs[id := run], status) == WithStatus(counted, runs, status);
    }
  }

  function WrittenState(s: State, db: Tables, id: string, run: RunRecord): State {
    s.(db := db, runs := s.runs[id := run],
       order := s.order + [id],
       jobs := s.jobs[id := Counting(RunUpdates(Finished(run.outcome.status, run.outcome.reason, run.steps)))])
  }

  /** The write of a decided run goes through. */
  lemma WriteLands(s: State, id: string, now: int, c: Config, run: RunRecord) returns (db: Tables)
    requires Invariant(s, c) && id in s.jobs && s.jobs[id] == Decided(run.outcome, run.steps)
    ensures Written(s, id, now) == WrittenState(s, db, id, run)
    ensures AllKept(db, s.runs[id := run], c.max) && db.tickets.Keys == s.db.tickets.Keys && id !in s.runs
  {
    assert Going(s.jobs[id], s.runs, s.counted, id, c.max);
    db := WriteSucceeds(s.db, id, run, now, c.max);
    KeysUnchanged(s.db, db, id, run, now);
    WrittenKept(s.db, db, s.runs, id, run, now, c.max);
  }

  lemma KeysUnchanged(db: Tables, after: Tables, id: string, run: RunRecord, now: int)
    requires id in db.tickets && forall other :: WrittenAt(db, after, id, run, now, other)
    ensures after.tickets.Keys == db.tickets.Keys
  {
    forall other ensures other in after.tickets <==> other in db.tickets {
      assert WrittenAt(db, after, id, run, now, other);
    }
  }

  lemma WriteKeeps(s: State, id: string, now: int, c: Config)
    requires Invariant(s, c) && id in s.jobs && s.jobs[id].Decided?
    ensures Invariant(Written(s, id, now), c)
  {
    var run := RunRecord(s.jobs[id].outcome, s.jobs[id].steps);
    var finished := Finished(run.outcome.status, run.outcome.reason, run.steps);
    var db := WriteLands(s, id, now, c, run);
    TicketFirst(finished);
    RunAdded(s.db.tickets.Keys, s.jobs, s.runs, s.counted, c.max, id, run, RunUpdates(finished));
    StatusesSame(s.totals.tickets, s.counted, s.runs, id, run);
  }

  // Counting --------------------------------------------------------------------------

  lemma WithOneMore(counted: set<string>, runs: map<string, RunRecord>, id: string, status: TicketStatus)
    requires id in runs && id !in counted
    ensures |WithStatus(counted + {id}, runs, status)| ==
            |WithStatus(counted, runs, status)| + if runs[id].outcome.status == status then 1 else 0
  {
    var before, after := WithStatus(counted, runs, status), WithStatus(counted + {id}, runs, status);
    assert after == if runs[id].outcome.status == status then before + {id} else before;
  }

  lemma OneMoreCounted(tickets: map<TicketStatus, nat>, counted: set<string>, runs: map<string, RunRecord>, id: string)
    requires Tallied(tickets, counted, runs) && id in runs && id !in counted
    ensures Tallied(Bump(tickets, runs[id].outcome.status), counted + {id}, runs)
  {
    forall status
      ensures Count(Bump(tickets, runs[id].outcome.status), status) == |WithStatus(counted + {id}, runs, status)|
    {
      WithOneMore(counted, runs, id, status);
    }
  }

  lemma CountedGoing(ids: set<string>, jobs: map<string, Job>, runs: map<string, RunRecord>, counted: set<string>,
                     max: int, id: string, more: set<string>)
    requires AllGoing(ids, jobs, runs, counted, max) && id in jobs && jobs[id].Counting? && jobs[id].pending != []
    requires more == if TicketPending(jobs[id].pending) then counted + {id} else counted
    ensures AllGoing(ids, jobs[id := Counting(jobs[id].pending[1..])], runs, more, max)
    ensures Awaited(jobs, runs, counted) ==> Awaited(jobs[id := Counting(jobs[id].pending[1..])], runs, more)
  {
    var pending := jobs[id].pending;
    var after := jobs[id := Counting(pending[1..])];
    assert Going(jobs[id], runs, counted, id, max);
    forall k | 0 <= k < |pending[1..]| ensures !pending[1..][k].TicketInc? {
      assert pending[1..][k] == pending[k + 1];
    }
    forall other | other in after ensures Going(after[other], runs, more, other, max) {
      if other != id { assert Going(jobs[other], runs, counted, other, max); }
    }
  }

  lemma TicketCounted(s: State, id: string, c: Config)
    requires Invariant(s, c) && id in s.jobs && s.jobs[id].Counting? && TicketPending(s.jobs[id].pending)
    ensures Invariant(Counted(s, id, c), c)
  {
    assert Going(s.jobs[id], s.runs, s.counted, id, c.max);
    CountedGoing(s.db.tickets.Keys, s.jobs, s.runs, s.counted, c.max, id, s.counted + {id});
    OneMoreCounted(s.totals.tickets, s.counted, s.runs, id);
  }

  lemma TicketsUntouched(t: Totals, u: Update, c: Config)
    requires WellShaped(t, c.iterationBounds, c.durationBounds) && !u.TicketInc?
    ensures Apply(t, u, c.iterationBounds, c.durationBounds).tickets == t.tickets
  {
  }

  lemma OtherCounted(s: State, id: string, c: Config)
    requires Invariant(s, c) && id in s.jobs && s.jobs[id].Counting? && s.jobs[id].pending != []
    requires !TicketPending(s.jobs[id].pending)
    ensures Invariant(Counted(s, id, c), c)
  {
    TicketsUntouched(s.totals, s.jobs[id].pending[0], c);
    assert Counted(s, id, c).totals.tickets == s.totals.tickets && Counted(s, id, c).counted == s.counted;
    CountedGoing(s.db.tickets.Keys, s.jobs, s.runs, s.counted, c.max, id, s.counted);
  }

  lemma CountKeeps(s: State, id: string, c: Config)
    requires Invariant(s, c) && id in s.jobs && s.jobs[id].Counting?
    ensures Invariant(Counted(s, id, c), c)
  {
    if s.jobs[id].pending == [] {
      DropKeeps(s, id, c);
    } else if TicketPending(s.jobs[id].pending) {
      TicketCounted(s, id, c);
    } else {
      OtherCounted(s, id, c);
    }
  }

  lemma DeathKeeps(s: State, c: Config)
    requires Invariant(s, c)
    ensures Invariant(s.(jobs := map[], totals := NO_TOTALS, counted := {}, made := [], deaths := s.deaths + 1), c)
  {
    NothingTallied(s.runs);
    var after := s.(jobs := map[], totals := NO_TOTALS, counted := {}, made := [], deaths := s.deaths + 1);
    assert after.db == s.db && after.runs == s.runs;
  }

  lemma RunIsComplete(w: World, max: int, steps: seq<TraceStep>)
    requires Genuine(w) && Records(steps, TraceOf(w, max))
    ensures Complete(Decide(w, max).outcome, steps, max)
  {
    assert RunOf(w, Decide(w, max).outcome, steps, max);
    OutcomesArePaired(w, max);
    EveryRunIsAccepted(w, max);
    TraceCoherent(w, max);
  }

  lemma RunKeeps(s: State, id: string, w: World, steps: seq<TraceStep>, c: Config)
    requires Invariant(s, c) && id in s.jobs && s.jobs[id] == Scheduled && Genuine(w) &&
             Records(steps, TraceOf(w, c.max))
    ensures Invariant(s.(jobs := s.jobs[id := Decided(Decide(w, c.max).outcome, steps)]), c)
  {
    RunIsComplete(w, c.max, steps);
    AdvanceKeeps(s, id, Decided(Decide(w, c.max).outcome, steps), c);
  }

  /** Every move of every run keeps the invariant, and so does the death of the process. */
  lemma MoveKeeps(s: State, move: Move, c: Config)
    requires Invariant(s, c) && Enabled(s, move, c)
    ensures Invariant(Next(s, move, c), c)
  {
    match move
    case Post(t) => PostKeeps(s, t, c);
    case Schedule(id) => AdvanceKeeps(s, id, Scheduled, c);
    case Run(id, w, steps) => RunKeeps(s, id, w, steps, c);
    case Write(id, now) => WriteKeeps(s, id, now, c);
    case WriteFails(id) => DropKeeps(s, id, c);
    case CountNext(id) => CountKeeps(s, id, c);
    case Die => DeathKeeps(s, c);
  }

  // ---------------------------------------------------------------------------------
  // What the invariant says
  // ---------------------------------------------------------------------------------

  /** A state after each of some moves, from the empty service on. */
  ghost predicate Behaviour(states: seq<State>, moves: seq<Move>, c: Config) {
    |states| == |moves| + 1 && states[0] == START &&
    forall i :: 0 <= i < |moves| ==> Enabled(states[i], moves[i], c) && states[i + 1] == Next(states[i], moves[i], c)
  }

  lemma {:induction false} BehaviourKeeps(states: seq<State>, moves: seq<Move>, c: Config, n: nat)
    requires Behaviour(states, moves, c) && n < |states|
    ensures Invariant(states[n], c)
  {
    if n == 0 {
      StartHolds(c);
    } else {
      BehaviourKeeps(states, moves, c, n - 1);
      assert Enabled(states[n - 1], moves[n - 1], c);
      MoveKeeps(states[n - 1], moves[n - 1], c);
      assert states[n] == Next(states[n - 1], moves[n - 1], c);
    }
  }

  function StoredWith(db: Tables, status: TicketStatus): set<string> {
    set id | id in db.tickets && db.tickets[id].resolution.status == status
  }

  /** What a reader finds under an id: a ticket in `processing` without reply, reason or any
      step, or a finished one with the outcome and the complete trace of one and the same run. */
  ghost predicate Whole(db: Tables, id: string, max: int)
    requires id in db.tickets
  {
    (db.tickets[id].resolution == OPEN && TraceIn(db, id) == Some([])) ||
    exists outcome, steps :: Complete(outcome, steps, max) && db.tickets[id].resolution == ResolutionOf(outcome) &&
                             TraceIn(db, id) == Some(steps)
  }

  lemma KeptIsWhole(s: State, id: string, c: Config)
    requires Invariant(s, c) && id in s.db.tickets
    ensures Whole(s.db, id, c.max)
    ensures id in s.runs <==> s.db.tickets[id].resolution.status != Processing
    ensures id in s.runs ==> s.db.tickets[id].resolution.status == s.runs[id].outcome.status
  {
    assert Kept(s.db, s.runs, id, c.max);
    if id in s.runs {
      assert Complete(s.runs[id].outcome, s.runs[id].steps, c.max);
    }
  }

  lemma SubsetSize(a: set<string>, b: set<string>)
    requires a <= b
    ensures |a| <= |b|
  {
    if a != {} {
      var x :| x in a;
      SubsetSize(a - {x}, b - {x});
    }
  }

  /** In every state of every behaviour -- posts, runs, writes that fail and deaths of the
      process interleaved in any way -- each stored ticket is untouched or whole. */
  lemma TicketsAreWhole(states: seq<State>, moves: seq<Move>, c: Config, n: nat, id: string)
    requires Behaviour(states, moves, c) && n < |states| && id in states[n].db.tickets
    ensures Whole(states[n].db, id, c.max)
  {
    BehaviourKeeps(states, moves, c, n);
    KeptIsWhole(states[n], id, c);
  }

  /** The reply of `w`'s run is accounted for by that run: every digit of it, by what the tools
      returned and the safe list of the template that rendered it; every number the check allows,
      identifier, masked name and status word, by a record behind a successful tool result. */
  ghost predicate ReplyAccounted(w: World, max: int, template: ReplyTemplate, reply: string) {
    var facts := FromObservations(Decide(w, max).history);
    w.resolve(template).Success? &&
    (forall i :: 0 <= i < |reply| && IsDigit(reply[i]) ==>
      DigitAccounted(reply, facts, w.resolve(template).value.safe, i)) &&
    (forall n :: n in facts.AllowedNumbers() ==> NumberReturned(w, max, facts, n)) &&
    WordsReturned(w, max, reply)
  }

  lemma WholeReply(db: Tables, id: string, max: int) returns (w: World, steps: seq<TraceStep>)
    requires id in db.tickets && Whole(db, id, max) && db.tickets[id].resolution.status == Replied
    ensures TraceIn(db, id) == Some(steps) && Genuine(w) && Records(steps, TraceOf(w, max))
    ensures Decide(w, max).outcome.status == Replied && Decide(w, max).outcome.reply == db.tickets[id].resolution.reply
  {
    var outcome;
    outcome, steps :| Complete(outcome, steps, max) && db.tickets[id].resolution == ResolutionOf(outcome) &&
                      TraceIn(db, id) == Some(steps);
    w :| RunOf(w, outcome, steps, max);
  }

  /** End-to-end grounding of what the store holds, under every interleaving: behind each stored
      reply there is one run, whose trace is stored with it, that sent this very reply, and that
      accounts for every digit, identifier, name and status word of it. */
  lemma StoredRepliesAreGrounded(states: seq<State>, moves: seq<Move>, c: Config, n: nat, id: string)
    returns (w: World, steps: seq<TraceStep>, template: ReplyTemplate)
    requires Behaviour(states, moves, c) && n < |states| && id in states[n].db.tickets
    requires states[n].db.tickets[id].resolution.status == Replied
    ensures Genuine(w) && TraceIn(states[n].db, id) == Some(steps) && Records(steps, TraceOf(w, c.max))
    ensures states[n].db.tickets[id].resolution.reply.Some?
    ensures Decide(w, c.max).outcome.reply == states[n].db.tickets[id].resolution.reply
    ensures ReplyAccounted(w, c.max, template, states[n].db.tickets[id].resolution.reply.value)
  {
    TicketsAreWhole(states, moves, c, n, id);
    w, steps := WholeReply(states[n].db, id, c.max);
    template := RepliesAreGrounded(w, c.max);
    RepliesNameOnlyReturned(w, c.max);
  }

  /** The ticket counters never claim more than the store holds; and with no run in flight and
      no process lost they claim exactly what it holds. */
  lemma CountersMatchStore(states: seq<State>, moves: seq<Move>, c: Config, n: nat, status: TicketStatus)
    requires Behaviour(states, moves, c) && n < |states| && status != Processing
    ensures var s := states[n];
            Count(s.totals.tickets, status) <= |StoredWith(s.db, status)| &&
            (s.jobs == map[] && s.deaths == 0 ==> Count(s.totals.tickets, status) == |StoredWith(s.db, status)|)
  {
    BehaviourKeeps(states, moves, c, n);
    CountedAreStored(states[n], c, status);
  }

  lemma StoredByStatus(s: State, c: Config, status: TicketStatus, id: string)
    requires Invariant(s, c) && status != Processing
    ensures id in StoredWith(s.db, status) <==> id in WithStatus(s.runs.Keys, s.runs, status)
  {
    if id in s.db.tickets { KeptIsWhole(s, id, c); }
  }

  lemma CountedWithin(counted: set<string>, runs: map<string, RunRecord>, status: TicketStatus)
    requires counted <= runs.Keys
    ensures |WithStatus(counted, runs, status)| <= |WithStatus(runs.Keys, runs, status)|
    ensures counted == runs.Keys ==> |WithStatus(counted, runs, status)| == |WithStatus(runs.Keys, runs, status)|
  {
    SubsetSize(WithStatus(counted, runs, status), WithStatus(runs.Keys, runs, status));
  }

  lemma AllAwaitedCounted(jobs: map<string, Job>, runs: map<string, RunRecord>, counted: set<string>)
    requires Awaited(jobs, runs, counted) && jobs == map[] && counted <= runs.Keys
    ensures counted == runs.Keys
  {
    assert forall id :: id in runs && id !in counted ==> id in jobs;
  }

  lemma StoredAreWritten(s: State, c: Config, status: TicketStatus)
    requires Invariant(s, c) && status != Processing
    ensures StoredWith(s.db, status) == WithStatus(s.runs.Keys, s.runs, status)
  {
    forall id ensures id in StoredWith(s.db, status) <==> id in WithStatus(s.runs.Keys, s.runs, status) {
      StoredByStatus(s, c, status, id);
    }
  }

  lemma TalliedWithin(tickets: map<TicketStatus, nat>, jobs: map<string, Job>, runs: map<string, RunRecord>,
                      counted: set<string>, status: TicketStatus)
    requires Tallied(tickets, counted, runs)
    ensures Count(tickets, status) <= |WithStatus(runs.Keys, runs, status)|
    ensures jobs == map[] && Awaited(jobs, runs, counted) ==>
              Count(tickets, status) == |WithStatus(runs.Keys, runs, status)|
  {
    CountedWithin(counted, runs, status);
    if jobs == map[] && Awaited(jobs, runs, counted) { AllAwaitedCounted(jobs, runs, counted); }
  }

  lemma CountedAreStored(s: State, c: Config, status: TicketStatus)
    requires Invariant(s, c) && status != Processing
    ensures Count(s.totals.tickets, status) <= |StoredWith(s.db, status)|
    ensures s.jobs == map[] && s.deaths == 0 ==> Count(s.totals.tickets, status) == |StoredWith(s.db, status)|
  {
    StoredAreWritten(s, c, status);
    TalliedWithin(s.totals.tickets, s.jobs, s.runs, s.counted, status);
  }

  /** The same ticket row and the same trace. */
  ghost predicate Unmoved(before: Tables, after: Tables, id: string)
    requires id in before.tickets
  {
    id in after.tickets && after.tickets[id] == before.tickets[id] && TraceIn(after, id) == TraceIn(before, id)
  }

  lemma WriteLeaves(s: State, id: string, now: int, c: Config, other: string)
    requires Invariant(s, c) && id in s.jobs && s.jobs[id].Decided? && other in s.db.tickets && other != id
    ensures Unmoved(s.db, Written(s, id, now).db, other)
  {
    var run := RunRecord(s.jobs[id].outcome, s.jobs[id].steps);
    assert Going(s.jobs[id], s.runs, s.counted, id, c.max);
    var after := WriteSucceeds(s.db, id, run, now, c.max);
    WrittenDb(s, id, now, after);
    assert WrittenAt(s.db, after, id, run, now, other);
  }

  lemma WrittenDb(s: State, id: string, now: int, after: Tables)
    requires id in s.jobs && s.jobs[id].Decided?
    requires TableFinalise(s.db, now, id, ResolutionOf(s.jobs[id].outcome), s.jobs[id].steps) == Success(after)
    ensures Written(s, id, now).db == after
  {
  }

  lemma WriteIsForOpen(s: State, id: string, c: Config)
    requires Invariant(s, c) && id in s.jobs && s.jobs[id].Decided?
    ensures id in s.db.tickets && s.db.tickets[id].resolution.status == Processing
  {
    assert Going(s.jobs[id], s.runs, s.counted, id, c.max);
    assert Kept(s.db, s.runs, id, c.max);
  }

  lemma PostLeaves(s: State, t: Ticket, id: string)
    requires id in s.db.tickets
    ensures Unmoved(s.db, Posted(s, t).db, id)
  {
    if TableCreate(s.db, t).Success? { assert Posted(s, t).db.steps == s.db.steps; }
  }

  lemma OthersLeave(s: State, move: Move, c: Config)
    requires Enabled(s, move, c) && !move.Post? && !move.Write?
    ensures Next(s, move, c).db == s.db
  {
    match move
    case Schedule(_) =>
    case Run(_, _, _) =>
    case WriteFails(_) =>
    case CountNext(_) =>
    case Die =>
  }

  /** A finished ticket is final: no later move touches its state or its trace. */
  lemma FinishedIsFinal(s: State, move: Move, c: Config, id: string)
    requires Invariant(s, c) && Enabled(s, move, c) && id in s.db.tickets &&
             s.db.tickets[id].resolution.status != Processing
    ensures Unmoved(s.db, Next(s, move, c).db, id)
  {
    if move.Post? {
      PostLeaves(s, move.t, id);
    } else if move.Write? {
      WriteIsForOpen(s, move.id, c);
      WriteLeaves(s, move.id, move.now, c, id);
    } else {
      OthersLeave(s, move, c);
    }
  }

  lemma PostedJobs(s: State, t: Ticket, id: string)
    requires id in s.db.tickets && id !in s.jobs
    ensures id !in Posted(s, t).jobs
  {
    if TableCreate(s.db, t).Success? { CreatedKeys(s.db, TableCreate(s.db, t).value, t); }
  }

  lemma WrittenJobs(s: State, id: string, now: int, other: string)
    requires id in s.jobs && s.jobs[id].Decided? && other !in s.jobs
    ensures other !in Written(s, id, now).jobs
  {
  }

  lemma CountedJobs(s: State, id: string, c: Config, other: string)
    requires Fits(s, c) && id in s.jobs && s.jobs[id].Counting? && other !in s.jobs
    ensures other !in Counted(s, id, c).jobs
  {
  }

  /** A ticket without a job stays as it is, whatever moves follow: nothing takes it up again. */
  lemma StrandedStays(s: State, move: Move, c: Config, id: string)
    requires Invariant(s, c) && Enabled(s, move, c) && id in s.db.tickets && id !in s.jobs
    ensures Unmoved(s.db, Next(s, move, c).db, id) && id !in Next(s, move, c).jobs
  {
    StrandedUnmoved(s, move, c, id);
    StrandedJobless(s, move, c, id);
  }

  lemma StrandedUnmoved(s: State, move: Move, c: Config, id: string)
    requires Invariant(s, c) && Enabled(s, move, c) && id in s.db.tickets && id !in s.jobs
    ensures Unmoved(s.db, Next(s, move, c).db, id)
  {
    if move.Post? {
      PostLeaves(s, move.t, id);
    } else if move.Write? {
      WriteLeaves(s, move.id, move.now, c, id);
    } else {
      OthersLeave(s, move, c);
    }
  }

  lemma StrandedJobless(s: State, move: Move, c: Config, id: string)
    requires Enabled(s, move, c) && id in s.db.tickets && id !in s.jobs
    ensures id !in Next(s, move, c).jobs
  {
    match move
    case Post(t) => PostedJobs(s, t, id);
    case Write(other, now) => WrittenJobs(s, other, now, id);
    case CountNext(other) => CountedJobs(s, other, c, id);
    case Schedule(_) =>
    case Run(_, _, _) =>
    case WriteFails(_) =>
    case Die =>
  }

  /** That is what becomes of a ticket whose write fails, and of every unfinished ticket when the
      process dies. The store is untouched; a failed write counts nothing, and a death forgets
      every count. */
  lemma FailureStrands(s: State, id: string, c: Config)
    requires Fits(s, c)
    ensures id in s.jobs && s.jobs[id].Decided? ==>
              var after := Next(s, WriteFails(id), c);
              after.db == s.db && after.totals == s.totals && after.jobs == s.jobs - {id}
    ensures var after := Next(s, Die, c);
            after.db == s.db && after.jobs == map[] && after.totals == NO_TOTALS
  {
  }

  /** A post is visible before its run is scheduled: whoever asks finds the ticket. */
  lemma PostedIsFound(s: State, t: Ticket, c: Config)
    requires Invariant(s, c) && Enabled(s, Post(t), c) && t.id !in s.db.tickets
    ensures var after := Next(s, Post(t), c);
            after.jobs == s.jobs[t.id := Accepted] && TableGet(after.db, t.id) == Success(Some(t.(trace := [])))
  {
    FreshTicketSeen(s.db, t);
  }

  // ---------------------------------------------------------------------------------
  // Every posted ticket can be finished
  // ---------------------------------------------------------------------------------

  /** Counting on until nothing of the job is left. */
  function CountedOut(s: State, id: string, c: Config): State
    requires Fits(s, c) && id in s.jobs && s.jobs[id].Counting?
    decreases |s.jobs[id].pending|
  {
    var next := Counted(s, id, c);
    if s.jobs[id].pending == [] then next else CountedOut(next, id, c)
  }

  lemma ApplyFirst(t: Totals, u: Update, rest: seq<Update>, us: seq<Update>, ib: seq<real>, db: seq<real>)
    requires WellShaped(t, ib, db) && us == [u] + rest
    ensures ApplyAll(t, us, ib, db) == ApplyAll(Apply(t, u, ib, db), rest, ib, db)
  {
    ApplyConcat(t, [u], rest, ib, db);
    ApplyOne(t, u, ib, db);
  }

  /** It makes all the updates that were pending, and ends with the job gone. */
  lemma {:induction false} CountingEnds(s: State, id: string, c: Config)
    requires Fits(s, c) && id in s.jobs && s.jobs[id].Counting?
    ensures var after := CountedOut(s, id, c);
            after.jobs == s.jobs - {id} && after.db == s.db &&
            after.totals == ApplyAll(s.totals, s.jobs[id].pending, c.iterationBounds, c.durationBounds)
    decreases |s.jobs[id].pending|
  {
    var pending := s.jobs[id].pending;
    if pending != [] {
      var next := Counted(s, id, c);
      CountingEnds(next, id, c);
      ApplyFirst(s.totals, pending[0], pending[1..], pending, c.iterationBounds, c.durationBounds);
      assert next.jobs - {id} == s.jobs - {id};
    }
  }

  lemma KeptHolds(db: Tables, runs: map<string, RunRecord>, id: string, run: RunRecord, max: int)
    requires AllKept(db, runs, max) && id in runs && runs[id] == run
    ensures id in db.tickets && db.tickets[id].resolution == ResolutionOf(run.outcome)
    ensures TraceIn(db, id) == Some(run.steps)
  {
    assert Kept(db, runs, id, max);
  }

  lemma WrittenFields(s: State, db: Tables, id: string, run: RunRecord, after: State, updates: seq<Update>)
    requires after == WrittenState(s, db, id, run)
    requires updates == RunUpdates(Finished(run.outcome.status, run.outcome.reason, run.steps))
    ensures after.db == db && after.totals == s.totals && id in after.jobs && after.jobs[id] == Counting(updates)
    ensures after.jobs - {id} == s.jobs - {id}
  {
  }

  /** What a write leaves of the state. */
  lemma WrittenHolds(s: State, id: string, now: int, c: Config, run: RunRecord, updates: seq<Update>)
    requires Invariant(s, c) && id in s.jobs && s.jobs[id] == Decided(run.outcome, run.steps)
    requires updates == RunUpdates(Finished(run.outcome.status, run.outcome.reason, run.steps))
    ensures var after := Written(s, id, now);
            after.totals == s.totals && id in after.jobs && after.jobs[id] == Counting(updates) &&
            after.jobs - {id} == s.jobs - {id} && id in after.db.tickets &&
            after.db.tickets[id].resolution == ResolutionOf(run.outcome) && TraceIn(after.db, id) == Some(run.steps)
  {
    var db := WriteLands(s, id, now, c, run);
    KeptHolds(db, s.runs[id := run], id, run, c.max);
    WrittenFields(s, db, id, run, Written(s, id, now), updates);
  }

  lemma TicketCanBeScheduled(s: State, id: string, c: Config) returns (after: State)
    requires Invariant(s, c) && id in s.jobs && s.jobs[id] == Accepted
    ensures Enabled(s, Schedule(id), c) && after == Next(s, Schedule(id), c)
    ensures Invariant(after, c) && after.totals == s.totals && id in after.jobs && after.jobs[id] == Scheduled
    ensures after.jobs - {id} == s.jobs - {id}
  {
    after := Next(s, Schedule(id), c);
    MoveKeeps(s, Schedule(id), c);
  }

  lemma ScheduledCanRun(s: State, id: string, w: World, steps: seq<TraceStep>, c: Config) returns (after: State)
    requires Invariant(s, c) && id in s.jobs && s.jobs[id] == Scheduled
    requires Genuine(w) && Records(steps, TraceOf(w, c.max))
    ensures Enabled(s, Move.Run(id, w, steps), c) && after == Next(s, Move.Run(id, w, steps), c)
    ensures Invariant(after, c) && after.totals == s.totals && id in after.jobs
    ensures after.jobs[id] == Decided(Decide(w, c.max).outcome, steps) && after.jobs - {id} == s.jobs - {id}
  {
    var job := Decided(Decide(w, c.max).outcome, steps);
    after := s.(jobs := s.jobs[id := job]);
    RunKeeps(s, id, w, steps, c);
    JobReplaced(s.jobs, id, job);
  }

  lemma JobReplaced(jobs: map<string, Job>, id: string, job: Job)
    requires id in jobs
    ensures jobs[id := job] - {id} == jobs - {id} && id in jobs[id := job] && jobs[id := job][id] == job
  {
  }

  /** A posted ticket can be scheduled and run. */
  lemma TicketCanRun(s: State, id: string, w: World, steps: seq<TraceStep>, c: Config)
    returns (scheduled: State, decided: State)
    requires Invariant(s, c) && id in s.jobs && s.jobs[id] == Accepted
    requires Genuine(w) && Records(steps, TraceOf(w, c.max))
    ensures Enabled(s, Schedule(id), c) && scheduled == Next(s, Schedule(id), c)
    ensures Enabled(scheduled, Move.Run(id, w, steps), c) && decided == Next(scheduled, Move.Run(id, w, steps), c)
    ensures Invariant(decided, c) && decided.totals == s.totals && id in decided.jobs
    ensures decided.jobs[id] == Decided(Decide(w, c.max).outcome, steps) && decided.jobs - {id} == s.jobs - {id}
  {
    scheduled := TicketCanBeScheduled(s, id, c);
    decided := ScheduledCanRun(scheduled, id, w, steps, c);
  }

  /** Whatever else is under way, a posted ticket that has run can be written and counted; it then
      holds the outcome and the trace of that run, with its job gone and the registry grown by
      exactly its updates. */
  lemma TicketCanFinish(s: State, id: string, w: World, steps: seq<TraceStep>, now: int, c: Config)
    returns (written: State, after: State)
    requires Invariant(s, c) && id in s.jobs && s.jobs[id] == Decided(Decide(w, c.max).outcome, steps)
    ensures Enabled(s, Write(id, now), c) && written == Next(s, Write(id, now), c)
    ensures Fits(written, c) && id in written.jobs && written.jobs[id].Counting?
    ensures Enabled(written, CountNext(id), c) && after == CountedOut(written, id, c)
    ensures Finishes(s, after, id, Decide(w, c.max).outcome, steps, c)
  {
    var run := RunRecord(Decide(w, c.max).outcome, steps);
    var updates := RunUpdates(Finished(run.outcome.status, run.outcome.reason, steps));
    written := Written(s, id, now);
    WrittenHolds(s, id, now, c, run, updates);
    CountingEnds(written, id, c);
    after := CountedOut(written, id, c);
  }

  ghost predicate Finishes(s: State, after: State, id: string, run: Outcome, steps: seq<TraceStep>, c: Config)
    requires Fits(s, c)
  {
    after.jobs == s.jobs - {id} && id in after.db.tickets &&
    after.db.tickets[id].resolution == Resolution(run.status, run.reply, run.reason) &&
    TraceIn(after.db, id) == Some(steps) &&
    after.totals == ApplyAll(s.totals, RunUpdates(Finished(run.status, run.reason, steps)), c.iterationBounds,
                      c.durationBounds)
  }
}

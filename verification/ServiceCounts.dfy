/**
 The counters and the store, under every interleaving: with no run in flight and no process
 lost, the registry holds what the stored traces hold.
 */
module ServiceCounts {
  import opened Wrappers
  import opened Domain
  import opened Trace
  import opened Orchestrator
  import opened Stores
  import opened StoreRefinement
  import opened Metrics
  import opened Service
  import opened Tickets
  import MetricFacts
  import RunMetrics

  /** A written run, as the fold sees it. */
  function FinishedOf(r: RunRecord): Finished { Finished(r.outcome.status, r.outcome.reason, r.steps) }

  /** The written runs, in the order they were written. */
  function RunsOf(runs: map<string, RunRecord>, order: seq<string>): (r: seq<Finished>)
    requires forall id :: id in order ==> id in runs
    ensures |r| == |order| && forall k :: 0 <= k < |order| ==> r[k] == FinishedOf(runs[order[k]])
  {
    seq(|order|, k requires 0 <= k < |order| => FinishedOf(runs[order[k]]))
  }

  /** Every written ticket, once. */
  ghost predicate Listed(order: seq<string>, runs: map<string, RunRecord>) {
    (forall i, j :: 0 <= i < j < |order| ==> order[i] != order[j]) && forall id :: id in order <==> id in runs
  }

  function PendingOf(jobs: map<string, Job>, id: string): seq<Update> {
    if id in jobs && jobs[id].Counting? then jobs[id].pending else []
  }

  /** The updates still to be made, ticket by ticket. */
  function Rest(jobs: map<string, Job>, order: seq<string>): seq<Update> {
    if order == [] then [] else Rest(jobs, order[..|order| - 1]) + PendingOf(jobs, order[|order| - 1])
  }

  /** The updates made and those still to be made are the updates of the written runs. */
  ghost predicate Owed(made: seq<Update>, jobs: map<string, Job>, order: seq<string>, runs: map<string, RunRecord>) {
    Listed(order, runs) &&
    multiset(made) + multiset(Rest(jobs, order)) == multiset(RunMetrics.AllUpdates(RunsOf(runs, order)))
  }

  /** The registry is what the updates made add up to, and no update is lost while the process
      lives. */
  ghost predicate Balanced(s: State, c: Config) {
    s.totals == ApplyAll(NO_TOTALS, s.made, c.iterationBounds, c.durationBounds) && Listed(s.order, s.runs) &&
    (s.deaths == 0 ==> Owed(s.made, s.jobs, s.order, s.runs))
  }

  // ---------------------------------------------------------------------------------
  // What is still to be counted
  // ---------------------------------------------------------------------------------

  lemma {:induction false} RestSame(jobs: map<string, Job>, after: map<string, Job>, order: seq<string>)
    requires forall id :: id in order ==> PendingOf(after, id) == PendingOf(jobs, id)
    ensures Rest(after, order) == Rest(jobs, order)
  {
    if order == [] {
    } else {
      assert order[|order| - 1] in order;
      RestSame(jobs, after, order[..|order| - 1]);
    }
  }

  lemma {:induction false} RestOfNothing(order: seq<string>)
    ensures Rest(map[], order) == []
  {
    if order == [] {
    } else {
      RestOfNothing(order[..|order| - 1]);
    }
  }

  lemma BagOfHead(u: Update, rest: seq<Update>, front: seq<Update>)
    ensures multiset(front + ([u] + rest)) == multiset(front + rest) + multiset{u}
  {
  }

  /** One update made is one fewer to make. */
  lemma {:induction false} RestTakes(jobs: map<string, Job>, after: map<string, Job>, order: seq<string>, id: string,
                                     u: Update)
    requires (forall i, j :: 0 <= i < j < |order| ==> order[i] != order[j]) && id in order
    requires PendingOf(jobs, id) == [u] + PendingOf(after, id)
    requires forall other :: other != id ==> PendingOf(after, other) == PendingOf(jobs, other)
    ensures multiset(Rest(jobs, order)) == multiset(Rest(after, order)) + multiset{u}
  {
    var front, last := order[..|order| - 1], order[|order| - 1];
    assert order == front + [last];
    if last == id {
      forall k | 0 <= k < |front| ensures front[k] != id { assert order[k] != order[|order| - 1]; }
      RestSame(jobs, after, front);
      BagOfHead(u, PendingOf(after, id), Rest(after, front));
    } else {
      assert id in front;
      RestTakes(jobs, after, front, id, u);
    }
  }

  lemma RestGrows(jobs: map<string, Job>, order: seq<string>, id: string, pending: seq<Update>)
    requires id !in order
    ensures Rest(jobs[id := Counting(pending)], order + [id]) == Rest(jobs, order) + pending
  {
    var after, whole := jobs[id := Counting(pending)], order + [id];
    assert whole[..|whole| - 1] == order && whole[|whole| - 1] == id;
    RestSame(jobs, after, order);
  }

  lemma RunsGrow(runs: map<string, RunRecord>, order: seq<string>, id: string, run: RunRecord)
    requires (forall other :: other in order ==> other in runs) && id !in runs
    ensures RunMetrics.AllUpdates(RunsOf(runs[id := run], order + [id])) ==
            RunMetrics.AllUpdates(RunsOf(runs, order)) + RunUpdates(FinishedOf(run))
  {
    var all, before := RunsOf(runs[id := run], order + [id]), RunsOf(runs, order);
    forall k | 0 <= k < |order| ensures all[k] == before[k] { assert order[k] in order; }
    assert all[..|all| - 1] == before;
  }

  lemma OwedGrows(made: seq<Update>, jobs: map<string, Job>, order: seq<string>, runs: map<string, RunRecord>,
                  id: string, run: RunRecord, updates: seq<Update>)
    requires Owed(made, jobs, order, runs) && id !in runs && updates == RunUpdates(FinishedOf(run))
    ensures Owed(made, jobs[id := Counting(updates)], order + [id], runs[id := run])
  {
    ListedGrows(order, runs, id, run);
    RestGrows(jobs, order, id, updates);
    RunsGrow(runs, order, id, run);
  }

  lemma OwedTaken(made: seq<Update>, jobs: map<string, Job>, after: map<string, Job>, order: seq<string>,
                  runs: map<string, RunRecord>, id: string, u: Update)
    requires Owed(made, jobs, order, runs) && id in order && PendingOf(jobs, id) == [u] + PendingOf(after, id)
    requires forall other :: other != id ==> PendingOf(after, other) == PendingOf(jobs, other)
    ensures Owed(made + [u], after, order, runs)
  {
    RestTakes(jobs, after, order, id, u);
  }

  lemma ListedGrows(order: seq<string>, runs: map<string, RunRecord>, id: string, run: RunRecord)
    requires Listed(order, runs) && id !in runs
    ensures Listed(order + [id], runs[id := run])
  {
    var whole := order + [id];
    forall i, j | 0 <= i < j < |whole| ensures whole[i] != whole[j] {
      assert whole[i] == order[i];
      if j == |order| { assert order[i] in order; }
    }
  }

  // ---------------------------------------------------------------------------------
  // Every move keeps the balance
  // ---------------------------------------------------------------------------------

  /** A move that leaves what is written, made and to be made. */
  lemma SameBalance(s: State, after: State, c: Config)
    requires Balanced(s, c) && after.totals == s.totals && after.made == s.made && after.deaths == s.deaths
    requires after.runs == s.runs && after.order == s.order
    requires forall id :: id in s.order ==> PendingOf(after.jobs, id) == PendingOf(s.jobs, id)
    ensures Balanced(after, c)
  {
    if s.deaths == 0 { OwedSame(s.made, s.jobs, after.jobs, s.order, s.runs); }
  }

  lemma OwedSame(made: seq<Update>, jobs: map<string, Job>, after: map<string, Job>, order: seq<string>,
                 runs: map<string, RunRecord>)
    requires Owed(made, jobs, order, runs) && forall id :: id in order ==> PendingOf(after, id) == PendingOf(jobs, id)
    ensures Owed(made, after, order, runs)
  {
    RestSame(jobs, after, order);
  }

  lemma JobPending(jobs: map<string, Job>, after: map<string, Job>, id: string)
    requires PendingOf(jobs, id) == [] && PendingOf(after, id) == []
    requires forall other :: other != id ==>
             (other in after <==> other in jobs) && (other in jobs ==> after[other] == jobs[other])
    ensures forall other :: PendingOf(after, other) == PendingOf(jobs, other)
  {
  }

  lemma PostBalances(s: State, t: Ticket, c: Config)
    requires Invariant(s, c) && Balanced(s, c)
    ensures Balanced(Posted(s, t), c)
  {
    if TableCreate(s.db, t).Success? {
      JobPending(s.jobs, s.jobs[t.id := Accepted], t.id);
      SameBalance(s, Posted(s, t), c);
    }
  }

  lemma JobBalances(s: State, id: string, jobs: map<string, Job>, c: Config)
    requires Balanced(s, c) && PendingOf(s.jobs, id) == [] && PendingOf(jobs, id) == []
    requires forall other :: other != id ==>
             (other in jobs <==> other in s.jobs) && (other in jobs ==> jobs[other] == s.jobs[other])
    ensures Balanced(s.(jobs := jobs), c)
  {
    JobPending(s.jobs, jobs, id);
    SameBalance(s, s.(jobs := jobs), c);
  }

  lemma WrittenBalances(s: State, id: string, run: RunRecord, db: Tables, c: Config)
    requires Balanced(s, c) && id !in s.runs
    ensures Balanced(WrittenState(s, db, id, run), c)
  {
    var updates := RunUpdates(FinishedOf(run));
    ListedGrows(s.order, s.runs, id, run);
    if s.deaths == 0 { OwedGrows(s.made, s.jobs, s.order, s.runs, id, run, updates); }
  }

  lemma WriteBalances(s: State, id: string, now: int, c: Config)
    requires Invariant(s, c) && Balanced(s, c) && id in s.jobs && s.jobs[id].Decided?
    ensures Balanced(Written(s, id, now), c)
  {
    var run := RunRecord(s.jobs[id].outcome, s.jobs[id].steps);
    var db := WriteLands(s, id, now, c, run);
    WrittenBalances(s, id, run, db, c);
  }

  lemma TakeBalances(s: State, id: string, after: State, u: Update, c: Config)
    requires Balanced(s, c) && id in s.order && Fits(s, c)
    requires after.runs == s.runs && after.order == s.order && after.deaths == s.deaths && after.made == s.made + [u]
    requires after.totals == Apply(s.totals, u, c.iterationBounds, c.durationBounds)
    requires PendingOf(s.jobs, id) == [u] + PendingOf(after.jobs, id)
    requires forall other :: other != id ==> PendingOf(after.jobs, other) == PendingOf(s.jobs, other)
    ensures Balanced(after, c)
  {
    ApplyLast(NO_TOTALS, s.made, u, c.iterationBounds, c.durationBounds);
    if s.deaths == 0 { OwedTaken(s.made, s.jobs, after.jobs, s.order, s.runs, id, u); }
  }

  lemma HeadTaken(jobs: map<string, Job>, id: string, pending: seq<Update>)
    requires id in jobs && jobs[id] == Counting(pending) && pending != []
    ensures PendingOf(jobs, id) == [pending[0]] + PendingOf(jobs[id := Counting(pending[1..])], id)
    ensures forall other :: other != id ==>
            PendingOf(jobs[id := Counting(pending[1..])], other) == PendingOf(jobs, other)
  {
  }

  lemma CountingIsListed(s: State, id: string, c: Config)
    requires Invariant(s, c) && Listed(s.order, s.runs) && id in s.jobs && s.jobs[id].Counting?
    ensures id in s.order
  {
    assert Going(s.jobs[id], s.runs, s.counted, id, c.max);
  }

  lemma CountBalances(s: State, id: string, c: Config)
    requires Fits(s, c) && Balanced(s, c) && id in s.jobs && s.jobs[id].Counting? && id in s.order
    ensures Balanced(Counted(s, id, c), c)
  {
    var pending := s.jobs[id].pending;
    if pending == [] {
      JobBalances(s, id, s.jobs - {id}, c);
    } else {
      HeadTaken(s.jobs, id, pending);
      TakeBalances(s, id, Counted(s, id, c), pending[0], c);
    }
  }

  lemma AdvanceBalances(s: State, id: string, job: Job, c: Config)
    requires Balanced(s, c) && id in s.jobs && !s.jobs[id].Counting? && !job.Counting?
    ensures Balanced(s.(jobs := s.jobs[id := job]), c)
  {
    JobBalances(s, id, s.jobs[id := job], c);
  }

  lemma DeathBalances(s: State, c: Config)
    requires Balanced(s, c)
    ensures Balanced(s.(jobs := map[], totals := NO_TOTALS, counted := {}, made := [], deaths := s.deaths + 1), c)
  {
  }

  lemma RunBalances(s: State, id: string, w: World, steps: seq<TraceStep>, c: Config)
    requires Balanced(s, c) && id in s.jobs && s.jobs[id] == Scheduled
    ensures Balanced(s.(jobs := s.jobs[id := Decided(Decide(w, c.max).outcome, steps)]), c)
  {
    AdvanceBalances(s, id, Decided(Decide(w, c.max).outcome, steps), c);
  }

  /** The moves that write nothing and count nothing. */
  lemma QuietMoveBalances(s: State, move: Move, c: Config)
    requires Balanced(s, c) && Enabled(s, move, c) && (move.Schedule? || move.Run? || move.WriteFails? || move.Die?)
    ensures Balanced(Next(s, move, c), c)
  {
    match move
    case Schedule(id) => AdvanceBalances(s, id, Scheduled, c);
    case Run(id, w, steps) => RunBalances(s, id, w, steps, c);
    case WriteFails(id) => JobBalances(s, id, s.jobs - {id}, c);
    case Die => DeathBalances(s, c);
  }

  lemma MoveBalances(s: State, move: Move, c: Config)
    requires Invariant(s, c) && Balanced(s, c) && Enabled(s, move, c)
    ensures Balanced(Next(s, move, c), c)
  {
    match move
    case Post(t) => PostBalances(s, t, c);
    case Write(id, now) => WriteBalances(s, id, now, c);
    case CountNext(id) => CountingIsListed(s, id, c); CountBalances(s, id, c);
    case _ => QuietMoveBalances(s, move, c);
  }

  lemma {:induction false} BehaviourBalances(states: seq<State>, moves: seq<Move>, c: Config, n: nat)
    requires Behaviour(states, moves, c) && n < |states|
    ensures Balanced(states[n], c)
  {
    if n == 0 {
      assert RunsOf(START.runs, START.order) == [];
    } else {
      BehaviourBalances(states, moves, c, n - 1);
      BehaviourKeeps(states, moves, c, n - 1);
      assert Enabled(states[n - 1], moves[n - 1], c);
      MoveBalances(states[n - 1], moves[n - 1], c);
      assert states[n] == Next(states[n - 1], moves[n - 1], c);
    }
  }

  // ---------------------------------------------------------------------------------
  // At rest
  // ---------------------------------------------------------------------------------

  /** `runs` are the finished tickets of the store, each once: the run under `ids[k]` has the
      status and reason its ticket carries and the trace a reader finds there. */
  ghost predicate StoredRuns(db: Tables, ids: seq<string>, runs: seq<Finished>) {
    |runs| == |ids| && (forall i, j :: 0 <= i < j < |ids| ==> ids[i] != ids[j]) &&
    (forall id :: id in ids <==> id in db.tickets && db.tickets[id].resolution.status != Processing) &&
    forall k :: 0 <= k < |ids| ==> ids[k] in db.tickets && HoldsRun(db, ids[k], runs[k])
  }

  ghost predicate HoldsRun(db: Tables, id: string, run: Finished)
    requires id in db.tickets
  {
    db.tickets[id].resolution.status == run.status && db.tickets[id].resolution.reason == run.reason &&
    TraceIn(db, id) == Some(run.steps)
  }

  lemma StoredRun(s: State, c: Config, id: string)
    requires Invariant(s, c) && id in s.runs && c.max >= 0
    ensures id in s.db.tickets && HoldsRun(s.db, id, FinishedOf(s.runs[id]))
    ensures RunMetrics.Settled(FinishedOf(s.runs[id]), c.max)
  {
    var run := s.runs[id];
    assert Kept(s.db, s.runs, id, c.max);
    RunSettles(run, c.max);
  }

  lemma RunSettles(run: RunRecord, max: nat)
    requires Complete(run.outcome, run.steps, max)
    ensures RunMetrics.Settled(FinishedOf(run), max)
  {
    var w :| RunOf(w, run.outcome, run.steps, max);
    RunMetrics.RunsSettle(w, max, FinishedOf(run));
  }

  lemma RunsAreStored(s: State, c: Config)
    requires Invariant(s, c) && Listed(s.order, s.runs) && c.max >= 0
    ensures StoredRuns(s.db, s.order, RunsOf(s.runs, s.order))
    ensures forall run :: run in RunsOf(s.runs, s.order) ==> RunMetrics.Settled(run, c.max)
  {
    forall id ensures id in s.order <==> id in s.db.tickets && s.db.tickets[id].resolution.status != Processing {
      if id in s.db.tickets { KeptIsWhole(s, id, c); }
    }
    forall k | 0 <= k < |s.order|
      ensures s.order[k] in s.db.tickets && HoldsRun(s.db, s.order[k], RunsOf(s.runs, s.order)[k])
      ensures RunMetrics.Settled(RunsOf(s.runs, s.order)[k], c.max)
    {
      assert s.order[k] in s.order;
      StoredRun(s, c, s.order[k]);
    }
  }

  /** Conservation, end to end: in every state of every behaviour in which no run is in flight
      and no process has died, the tickets, handoffs, tool calls and violations counted are those
      of the stored tickets and their traces, and each stored run was observed once for its
      iterations. */
  lemma RegistryMatchesStore(states: seq<State>, moves: seq<Move>, c: Config, n: nat)
    returns (ids: seq<string>, runs: seq<Finished>)
    requires Behaviour(states, moves, c) && n < |states| && c.max >= 0
    requires states[n].jobs == map[] && states[n].deaths == 0
    ensures StoredRuns(states[n].db, ids, runs)
    ensures RunMetrics.Conserves(states[n].totals, runs)
    ensures MetricFacts.TallyAt(c.iterationBounds, states[n].totals.iterations, ()).count == |runs|
  {
    var s := states[n];
    BehaviourKeeps(states, moves, c, n);
    BehaviourBalances(states, moves, c, n);
    ids, runs := s.order, RunsOf(s.runs, s.order);
    RunsAreStored(s, c);
    RestOfNothing(s.order);
    RunMetrics.MetricsConserve(runs, c.max, s.made, c.iterationBounds, c.durationBounds);
    RunMetrics.IterationsCounted(runs, c.max, s.made, c.iterationBounds, c.durationBounds);
  }
}

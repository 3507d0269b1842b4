/** Counters and histograms, and the fold of a finished run into them. */
module Metrics {
  import opened Wrappers
  import opened Domain
  import opened Trace

  // ---------------------------------------------------------------------------------
  // Counters
  // ---------------------------------------------------------------------------------

  function Count<K>(values: map<K, nat>, key: K): nat { if key in values then values[key] else 0 }

  function Bump<K>(values: map<K, nat>, key: K): map<K, nat> { values[key := Count(values, key) + 1] }

  /** A count for each label combination seen. */
  class Counter<K(==)> {
    var values: map<K, nat>

    constructor ()
      ensures values == map[]
    {
      values := map[];
    }

    method Inc(key: K)
      modifies this
      ensures values == Bump(old(values), key)
    {
      values := values[key := (if key in values then values[key] else 0) + 1];
    }
  }

  // ---------------------------------------------------------------------------------
  // Histograms
  // ---------------------------------------------------------------------------------

  predicate Rising(bounds: seq<real>) {
    forall i, j :: 0 <= i < j < |bounds| ==> bounds[i] <= bounds[j]
  }

  function Place(x: real, bounds: seq<real>): seq<real> {
    if bounds == [] || x <= bounds[0] then [x] + bounds else [bounds[0]] + Place(x, bounds[1..])
  }

  /** The bounds in ascending order. */
  function Arrange(bounds: seq<real>): seq<real> {
    if bounds == [] then [] else Place(bounds[0], Arrange(bounds[1..]))
  }

  lemma FirstRises(first: real, rest: seq<real>, low: real)
    requires low <= first && Rising(rest) && forall i :: 0 <= i < |rest| ==> first <= rest[i]
    ensures Rising([first] + rest) && forall i :: 0 <= i < |[first] + rest| ==> low <= ([first] + rest)[i]
  {
  }

  lemma {:induction false} PlaceRises(x: real, bounds: seq<real>, low: real)
    requires Rising(bounds) && low <= x && forall i :: 0 <= i < |bounds| ==> low <= bounds[i]
    ensures Rising(Place(x, bounds)) && forall i :: 0 <= i < |Place(x, bounds)| ==> low <= Place(x, bounds)[i]
  {
    if bounds == [] || x <= bounds[0] {
      FirstRises(x, bounds, low);
    } else {
      PlaceRises(x, bounds[1..], bounds[0]);
      FirstRises(bounds[0], Place(x, bounds[1..]), low);
    }
  }

  lemma {:induction false} PlaceKeeps(x: real, bounds: seq<real>)
    ensures multiset(Place(x, bounds)) == multiset{x} + multiset(bounds)
  {
    if bounds == [] || x <= bounds[0] {
    } else {
      PlaceKeeps(x, bounds[1..]);
      assert bounds == [bounds[0]] + bounds[1..];
    }
  }

  lemma {:induction false} LeastOf(x: real, bounds: seq<real>) returns (low: real)
    ensures low <= x && forall i :: 0 <= i < |bounds| ==> low <= bounds[i]
  {
    if bounds == [] {
      low := x;
    } else {
      low := LeastOf(x, bounds[1..]);
      low := if low <= bounds[0] then low else bounds[0];
    }
  }

  lemma {:induction false} ArrangeRises(bounds: seq<real>)
    ensures Rising(Arrange(bounds)) && multiset(Arrange(bounds)) == multiset(bounds)
  {
    if bounds == [] {
    } else {
      ArrangeRises(bounds[1..]);
      var low := LeastOf(bounds[0], Arrange(bounds[1..]));
      PlaceRises(bounds[0], Arrange(bounds[1..]), low);
      PlaceKeeps(bounds[0], Arrange(bounds[1..]));
      assert bounds == [bounds[0]] + bounds[1..];
    }
  }

  /** Only one arrangement of some bounds rises. */
  lemma {:induction false} RisingUnique(a: seq<real>, b: seq<real>)
    requires Rising(a) && Rising(b) && multiset(a) == multiset(b)
    ensures a == b
  {
    if a == [] {
      assert |multiset(b)| == 0;
    } else {
      FirstIsLeast(a, b);
      FirstIsLeast(b, a);
      assert a == [a[0]] + a[1..] && b == [b[0]] + b[1..];
      assert multiset(a[1..]) == multiset(a) - multiset{a[0]} && multiset(b[1..]) == multiset(b) - multiset{b[0]};
      RisingUnique(a[1..], b[1..]);
    }
  }

  lemma FirstIsLeast(a: seq<real>, b: seq<real>)
    requires Rising(a) && a != [] && multiset(a) == multiset(b)
    ensures b != [] && a[0] <= b[0]
  {
    assert a[0] in multiset(b) by { assert a[0] in multiset(a); }
    assert b[0] in multiset(a) by { assert b[0] in multiset(b); }
    var k :| 0 <= k < |a| && a[k] == b[0];
    if k > 0 { assert a[0] <= a[k]; }
  }

  /** The state of one label combination of a histogram. */
  datatype Tally = Tally(counts: seq<nat>, overflow: nat, total: real, count: nat)

  function Zeros(n: nat): (r: seq<nat>)
    ensures |r| == n && forall i :: 0 <= i < n ==> r[i] == 0
  {
    seq(n, _ => 0)
  }

  function Empty(bounds: seq<real>): Tally { Tally(Zeros(|bounds|), 0, 0.0, 0) }

  /** The first bucket whose bound the value does not exceed, or none. */
  function BucketOf(bounds: seq<real>, v: real): (i: nat)
    ensures i <= |bounds| && (i < |bounds| ==> v <= bounds[i]) && forall j :: 0 <= j < i ==> v > bounds[j]
  {
    if bounds == [] then 0 else if v <= bounds[0] then 0 else 1 + BucketOf(bounds[1..], v)
  }

  function AddTo(bounds: seq<real>, t: Tally, v: real): Tally
    requires |t.counts| == |bounds|
  {
    var i := BucketOf(bounds, v);
    var counts := if i < |bounds| then t.counts[i := t.counts[i] + 1] else t.counts;
    Tally(counts, if i < |bounds| then t.overflow else t.overflow + 1, t.total + v, t.count + 1)
  }

  /** The tally of some observations, from an empty one. */
  function TallyOf(bounds: seq<real>, seen: seq<real>): (t: Tally)
    ensures |t.counts| == |bounds|
  {
    if seen == [] then Empty(bounds)
    else AddTo(bounds, TallyOf(bounds, seen[..|seen| - 1]), seen[|seen| - 1])
  }

  /** Walks the bounds up to the first that holds the value; past them all is overflow. */
  method Observe(bounds: seq<real>, t: Tally, v: real) returns (after: Tally)
    requires |t.counts| == |bounds|
    ensures after == AddTo(bounds, t, v)
  {
    var counts, overflow := t.counts, t.overflow;
    var i := 0;
    while i < |bounds| && v > bounds[i]
      invariant 0 <= i <= |bounds| && forall j :: 0 <= j < i ==> v > bounds[j]
    {
      i := i + 1;
    }
    assert i == BucketOf(bounds, v);
    if i < |bounds| {
      counts := counts[i := counts[i] + 1];
    } else {
      overflow := overflow + 1;
    }
    after := Tally(counts, overflow, t.total + v, t.count + 1);
  }

  /** Observations in the first `i + 1` buckets. */
  function Cumulative(counts: seq<nat>, i: nat): nat
    requires i < |counts|
  {
    counts[i] + if i == 0 then 0 else Cumulative(counts, i - 1)
  }

  /** What a series renders as: a cumulative count per bound, then `+Inf`, sum and count. */
  datatype Rendered = Rendered(buckets: seq<nat>, infinity: nat, sum: real, count: nat)

  method RenderSeries(t: Tally) returns (r: Rendered)
    ensures |r.buckets| == |t.counts| && forall i :: 0 <= i < |t.counts| ==> r.buckets[i] == Cumulative(t.counts, i)
    ensures r.infinity == t.overflow + (if t.counts == [] then 0 else Cumulative(t.counts, |t.counts| - 1))
    ensures r.sum == t.total && r.count == t.count
  {
    var cumulative := 0;
    var buckets: seq<nat> := [];
    for i := 0 to |t.counts|
      invariant |buckets| == i && forall j :: 0 <= j < i ==> buckets[j] == Cumulative(t.counts, j)
      invariant cumulative == if i == 0 then 0 else Cumulative(t.counts, i - 1)
    {
      cumulative := cumulative + t.counts[i];
      buckets := buckets + [cumulative];
    }
    r := Rendered(buckets, cumulative + t.overflow, t.total, t.count);
  }

  /** One more observation under a key. */
  function Grown<K>(bounds: seq<real>, m: map<K, Tally>, key: K, v: real): map<K, Tally>
    requires key in m ==> |m[key].counts| == |bounds|
  {
    m[key := AddTo(bounds, if key in m then m[key] else Empty(bounds), v)]
  }

  /** A family of series, each made on first use. */
  class Histogram<K(==)> {
    const bounds: seq<real>
    var series: map<K, Tally>

    predicate Valid()
      reads this
    {
      forall k | k in series :: |series[k].counts| == |bounds|
    }

    /** The bounds are put in order. */
    constructor (bounds: seq<real>)
      ensures Valid() && series == map[] && Rising(this.bounds) && multiset(this.bounds) == multiset(bounds)
    {
      ArrangeRises(bounds);
      this.bounds := Arrange(bounds);
      series := map[];
    }

    method Add(v: real, key: K)
      requires Valid()
      modifies this
      ensures Valid() && series == Grown(bounds, old(series), key, v)
    {
      var t := if key in series then series[key] else Empty(bounds);
      t := Observe(bounds, t, v);
      series := series[key := t];
    }
  }

  // ---------------------------------------------------------------------------------
  // The registry and the fold
  // ---------------------------------------------------------------------------------

  const DURATION_BUCKETS: seq<real> := [0.01, 0.025, 0.05, 0.1, 0.25, 0.5, 1.0, 2.5, 5.0, 10.0]
  const ITERATION_BUCKETS: seq<real> := [0.0, 1.0, 2.0, 3.0, 4.0, 5.0]

  lemma BucketsRise()
    ensures Rising(ITERATION_BUCKETS) && Rising(DURATION_BUCKETS)
  {
  }

  lemma BoundsAre(bounds: seq<real>, iterations: bool)
    requires Rising(bounds)
    requires multiset(bounds) == if iterations then multiset(ITERATION_BUCKETS) else multiset(DURATION_BUCKETS)
    ensures bounds == if iterations then ITERATION_BUCKETS else DURATION_BUCKETS
  {
    BucketsRise();
    RisingUnique(bounds, if iterations then ITERATION_BUCKETS else DURATION_BUCKETS);
  }

  /** What `record_run` is given. */
  datatype Finished = Finished(status: TicketStatus, reason: Option<HandoffReason>, steps: seq<TraceStep>)

  /** One update of one family: each is atomic on its own. */
  datatype Update =
    | TicketInc(status: TicketStatus)
    | HandoffInc(reason: HandoffReason)
    | ViolationInc(literalClass: LiteralClass)
    | ToolInc(tool: string, ok: bool)
    | IterationsSeen(n: nat)
    | DurationSeen(status: TicketStatus, microseconds: int)

  function ViolationUpdates(violations: seq<Violation>): seq<Update> {
    if violations == [] then []
    else ViolationUpdates(violations[..|violations| - 1]) + [ViolationInc(violations[|violations| - 1].literalClass)]
  }

  /** What one step adds. */
  function StepUpdates(e: Event): seq<Update> {
    match e
    case ToolReturned(name, ok, _, _) => [ToolInc(name, ok)]
    case GroundingChecked(_, _, violations) => ViolationUpdates(violations)
    case _ => []
  }

  function TraceUpdates(events: seq<Event>): seq<Update> {
    if events == [] then [] else TraceUpdates(events[..|events| - 1]) + StepUpdates(events[|events| - 1])
  }

  /** The updates of a run, in the order they are made. */
  function RunUpdates(run: Finished): seq<Update> {
    OutcomeUpdates(run.status, run.reason) + [IterationsSeen(Decisions(EventsOf(run.steps)))] +
    TraceUpdates(EventsOf(run.steps)) + DurationUpdates(run)
  }

  function OutcomeUpdates(status: TicketStatus, reason: Option<HandoffReason>): seq<Update> {
    [TicketInc(status)] + if reason.Some? then [HandoffInc(reason.value)] else []
  }

  function DurationUpdates(run: Finished): seq<Update> {
    if run.steps == [] then [] else [DurationSeen(run.status, run.steps[|run.steps| - 1].ts - run.steps[0].ts)]
  }

  function Seconds(microseconds: int): real { microseconds as real / 1000000.0 }

  /** The registry's contents. */
  datatype Totals = Totals(
    tickets: map<TicketStatus, nat>, handoffs: map<HandoffReason, nat>, violations: map<LiteralClass, nat>,
    tools: map<(string, bool), nat>, iterations: map<(), Tally>, durations: map<TicketStatus, Tally>)

  const NO_TOTALS := Totals(map[], map[], map[], map[], map[], map[])

  predicate Shaped(bounds: seq<real>, t: Tally) { |t.counts| == |bounds| }

  predicate WellShaped(t: Totals, iterationBounds: seq<real>, durationBounds: seq<real>) {
    (forall k | k in t.iterations :: Shaped(iterationBounds, t.iterations[k])) &&
    (forall k | k in t.durations :: Shaped(durationBounds, t.durations[k]))
  }

  /** One update of the registry. */
  function Apply(t: Totals, u: Update, iterationBounds: seq<real>, durationBounds: seq<real>): (r: Totals)
    requires WellShaped(t, iterationBounds, durationBounds)
    ensures WellShaped(r, iterationBounds, durationBounds)
  {
    match u
    case TicketInc(status) => t.(tickets := Bump(t.tickets, status))
    case HandoffInc(reason) => t.(handoffs := Bump(t.handoffs, reason))
    case ViolationInc(c) => t.(violations := Bump(t.violations, c))
    case ToolInc(tool, ok) => t.(tools := Bump(t.tools, (tool, ok)))
    case IterationsSeen(n) => t.(iterations := Grown(iterationBounds, t.iterations, (), n as real))
    case DurationSeen(status, us) => t.(durations := Grown(durationBounds, t.durations, status, Seconds(us)))
  }

  function ApplyAll(t: Totals, us: seq<Update>, iterationBounds: seq<real>, durationBounds: seq<real>): (r: Totals)
    requires WellShaped(t, iterationBounds, durationBounds)
    ensures WellShaped(r, iterationBounds, durationBounds)
  {
    if us == [] then t
    else Apply(ApplyAll(t, us[..|us| - 1], iterationBounds, durationBounds), us[|us| - 1], iterationBounds,
      durationBounds)
  }

  lemma {:induction false} ApplyConcat(t: Totals, a: seq<Update>, b: seq<Update>, ib: seq<real>, db: seq<real>)
    requires WellShaped(t, ib, db)
    ensures ApplyAll(t, a + b, ib, db) == ApplyAll(ApplyAll(t, a, ib, db), b, ib, db)
    decreases |b|
  {
    if b == [] {
      assert a + b == a;
    } else {
      var front := b[..|b| - 1];
      assert (a + b)[..|a + b| - 1] == a + front;
      ApplyConcat(t, a, front, ib, db);
    }
  }

  class Registry {
    const tickets: Counter<TicketStatus>
    const handoffs: Counter<HandoffReason>
    const violations: Counter<LiteralClass>
    const tools: Counter<(string, bool)>
    const iterations: Histogram<()>
    const durations: Histogram<TicketStatus>

    predicate Valid()
      reads iterations, durations
    {
      iterations.Valid() && durations.Valid()
    }

    function Value(): Totals
      reads this, tickets, handoffs, violations, tools, iterations, durations
    {
      Totals(tickets.values, handoffs.values, violations.values, tools.values, iterations.series, durations.series)
    }

    constructor ()
      ensures Valid() && Value() == NO_TOTALS
      ensures iterations.bounds == [0.0, 1.0, 2.0, 3.0, 4.0, 5.0]
      ensures durations.bounds == [0.01, 0.025, 0.05, 0.1, 0.25, 0.5, 1.0, 2.5, 5.0, 10.0]
      ensures fresh(tickets) && fresh(handoffs) && fresh(violations) && fresh(tools) && fresh(iterations) &&
              fresh(durations)
    {
      tickets := new Counter();
      handoffs := new Counter();
      violations := new Counter();
      tools := new Counter();
      iterations := new Histogram(ITERATION_BUCKETS);
      durations := new Histogram(DURATION_BUCKETS);
      new;
      BoundsAre(iterations.bounds, true);
      BoundsAre(durations.bounds, false);
    }

    method RecordViolations(found: seq<Violation>)
      requires Valid()
      modifies violations
      ensures Valid() && Value() == ApplyAll(old(Value()), ViolationUpdates(found), iterations.bounds, durations.bounds)
    {
      ghost var was := Value();
      for i := 0 to |found|
        invariant Valid() && Value() == ApplyAll(was, ViolationUpdates(found[..i]), iterations.bounds, durations.bounds)
      {
        ApplyLast(was, ViolationUpdates(found[..i]), ViolationInc(found[i].literalClass), iterations.bounds,
          durations.bounds);
        violations.Inc(found[i].literalClass);
        assert found[..i + 1][..i] == found[..i];
      }
      assert found[..|found|] == found;
    }

    /** The updates of one step of a trace. */
    method RecordStep(e: Event)
      requires Valid()
      modifies violations, tools
      ensures Valid() && Value() == ApplyAll(old(Value()), StepUpdates(e), iterations.bounds, durations.bounds)
    {
      match e
      case ToolReturned(name, ok, _, _) =>
        ApplyOne(Value(), ToolInc(name, ok), iterations.bounds, durations.bounds);
        tools.Inc((name, ok));
      case GroundingChecked(_, _, found) => RecordViolations(found);
      case _ =>
    }

    method RecordSteps(events: seq<Event>)
      requires Valid()
      modifies violations, tools
      ensures Valid() && Value() == ApplyAll(old(Value()), TraceUpdates(events), iterations.bounds, durations.bounds)
    {
      ghost var was := Value();
      for i := 0 to |events|
        invariant Valid() && Value() == ApplyAll(was, TraceUpdates(events[..i]), iterations.bounds, durations.bounds)
      {
        RecordStep(events[i]);
        ApplyConcat(was, TraceUpdates(events[..i]), StepUpdates(events[i]), iterations.bounds, durations.bounds);
        assert events[..i + 1][..i] == events[..i];
      }
      assert events[..|events|] == events;
    }

    method RecordOutcome(status: TicketStatus, reason: Option<HandoffReason>)
      requires Valid()
      modifies tickets, handoffs
      ensures Valid() && Value() ==
              ApplyAll(old(Value()), OutcomeUpdates(status, reason), iterations.bounds, durations.bounds)
    {
      ghost var was := Value();
      tickets.Inc(status);
      ApplyOne(was, TicketInc(status), iterations.bounds, durations.bounds);
      if reason.Some? {
        handoffs.Inc(reason.value);
        ApplyLast(was, [TicketInc(status)], HandoffInc(reason.value), iterations.bounds, durations.bounds);
      } else {
        assert [TicketInc(status)] + [] == [TicketInc(status)];
      }
    }

    method RecordIterations(events: seq<Event>)
      requires Valid()
      modifies iterations
      ensures Valid() && Value() ==
              ApplyAll(old(Value()), [IterationsSeen(Decisions(events))], iterations.bounds, durations.bounds)
    {
      var decisions := CountDecisions(events);
      ApplyOne(Value(), IterationsSeen(decisions), iterations.bounds, durations.bounds);
      iterations.Add(decisions as real, ());
    }

    method RecordDuration(run: Finished)
      requires Valid()
      modifies durations
      ensures Valid() && Value() == ApplyAll(old(Value()), DurationUpdates(run), iterations.bounds, durations.bounds)
    {
      if run.steps != [] {
        var us := run.steps[|run.steps| - 1].ts - run.steps[0].ts;
        ApplyOne(Value(), DurationSeen(run.status, us), iterations.bounds, durations.bounds);
        durations.Add(Seconds(us), run.status);
      }
    }

    /** One finished run, folded in: its outcome, its decisions, its steps in order, and how
        long it took. */
    method RecordRun(run: Finished)
      requires Valid()
      modifies tickets, handoffs, violations, tools, iterations, durations
      ensures Valid() && Value() == ApplyAll(old(Value()), RunUpdates(run), iterations.bounds, durations.bounds)
    {
      var events := EventsOf(run.steps);
      RunInParts(Value(), run, iterations.bounds, durations.bounds);
      RecordOutcome(run.status, run.reason);
      RecordIterations(events);
      RecordSteps(events);
      RecordDuration(run);
    }
  }

  /** The parts of a run's updates, one after the other. */
  lemma RunInParts(t: Totals, run: Finished, ib: seq<real>, db: seq<real>)
    requires WellShaped(t, ib, db)
    ensures var t1 := ApplyAll(t, OutcomeUpdates(run.status, run.reason), ib, db);
            var t2 := ApplyAll(t1, [IterationsSeen(Decisions(EventsOf(run.steps)))], ib, db);
            var t3 := ApplyAll(t2, TraceUpdates(EventsOf(run.steps)), ib, db);
            ApplyAll(t, RunUpdates(run), ib, db) == ApplyAll(t3, DurationUpdates(run), ib, db)
  {
    var a, b := OutcomeUpdates(run.status, run.reason), [IterationsSeen(Decisions(EventsOf(run.steps)))];
    var c, d := TraceUpdates(EventsOf(run.steps)), DurationUpdates(run);
    FourParts(t, a, b, c, d, ib, db);
  }

  lemma FourParts(t: Totals, a: seq<Update>, b: seq<Update>, c: seq<Update>, d: seq<Update>, ib: seq<real>,
                  db: seq<real>)
    requires WellShaped(t, ib, db)
    ensures ApplyAll(t, a + b + c + d, ib, db) ==
            ApplyAll(ApplyAll(ApplyAll(ApplyAll(t, a, ib, db), b, ib, db), c, ib, db), d, ib, db)
  {
    ApplyConcat(t, a + b + c, d, ib, db);
    ApplyConcat(t, a + b, c, ib, db);
    ApplyConcat(t, a, b, ib, db);
  }

  lemma ApplyLast(t: Totals, us: seq<Update>, u: Update, ib: seq<real>, db: seq<real>)
    requires WellShaped(t, ib, db)
    ensures ApplyAll(t, us + [u], ib, db) == Apply(ApplyAll(t, us, ib, db), u, ib, db)
  {
    assert (us + [u])[..|us|] == us;
  }

  lemma ApplyOne(t: Totals, u: Update, ib: seq<real>, db: seq<real>)
    requires WellShaped(t, ib, db)
    ensures ApplyAll(t, [u], ib, db) == Apply(t, u, ib, db)
  {
    ApplyLast(t, [], u, ib, db);
    assert [] + [u] == [u];
  }

  lemma {:induction false} DecisionsLast(events: seq<Event>)
    requires events != []
    ensures Decisions(events) == Decisions(events[..|events| - 1]) + if events[|events| - 1].LLMDecision? then 1 else 0
  {
    var front, last := events[..|events| - 1], events[|events| - 1];
    DecisionsConcat(front, [last]);
    DecisionsOfOne(last);
    assert events == front + [last];
  }

  /** How many decisions the model took. */
  method CountDecisions(events: seq<Event>) returns (n: nat)
    ensures n == Decisions(events)
  {
    n := 0;
    for i := 0 to |events|
      invariant n == Decisions(events[..i])
    {
      if events[i].LLMDecision? {
        n := n + 1;
      }
      DecisionsLast(events[..i + 1]);
      assert events[..i + 1][..i] == events[..i];
    }
    assert events[..|events|] == events;
  }
}

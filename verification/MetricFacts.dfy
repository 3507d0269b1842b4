/** What the metrics mean: histograms count observations, counters count updates, and no order
    of updates matters. */
module MetricFacts {
  import opened Domain
  import opened Metrics

  // ---------------------------------------------------------------------------------
  // Histograms
  // ---------------------------------------------------------------------------------

  /** How many of the observations do not exceed `bound`. */
  function AtMost(seen: seq<real>, bound: real): nat {
    if seen == [] then 0
    else AtMost(seen[..|seen| - 1], bound) + if seen[|seen| - 1] <= bound then 1 else 0
  }

  function Sum(seen: seq<real>): real {
    if seen == [] then 0.0 else Sum(seen[..|seen| - 1]) + seen[|seen| - 1]
  }

  lemma {:induction false} CumulativeBump(counts: seq<nat>, at: nat, i: nat)
    requires at < |counts| && i < |counts|
    ensures Cumulative(counts[at := counts[at] + 1], i) == Cumulative(counts, i) + if at <= i then 1 else 0
  {
    if i == 0 {
    } else {
      CumulativeBump(counts, at, i - 1);
    }
  }

  lemma {:induction false} CumulativeZeros(n: nat, i: nat)
    requires i < n
    ensures Cumulative(Zeros(n), i) == 0
  {
    if i == 0 {
    } else {
      CumulativeZeros(n, i - 1);
    }
  }

  lemma BucketReaches(bounds: seq<real>, v: real, i: nat)
    requires Rising(bounds) && i < |bounds|
    ensures BucketOf(bounds, v) <= i <==> v <= bounds[i]
  {
    var at := BucketOf(bounds, v);
    if at < i { assert bounds[at] <= bounds[i]; }
  }

  lemma {:induction false} BucketsCount(bounds: seq<real>, seen: seq<real>, i: nat)
    requires Rising(bounds) && i < |bounds|
    ensures Cumulative(TallyOf(bounds, seen).counts, i) == AtMost(seen, bounds[i])
  {
    if seen == [] {
      CumulativeZeros(|bounds|, i);
    } else {
      var front, v := seen[..|seen| - 1], seen[|seen| - 1];
      BucketsCount(bounds, front, i);
      BucketReaches(bounds, v, i);
      var at := BucketOf(bounds, v);
      if at < |bounds| { CumulativeBump(TallyOf(bounds, front).counts, at, i); }
    }
  }

  /** All observations, in buckets or overflow. */
  function Everything(t: Tally): nat {
    t.overflow + if t.counts == [] then 0 else Cumulative(t.counts, |t.counts| - 1)
  }

  lemma {:induction false} NothingLost(bounds: seq<real>, seen: seq<real>)
    ensures var t := TallyOf(bounds, seen); Everything(t) == t.count == |seen| && t.total == Sum(seen)
  {
    if seen == [] {
      if bounds != [] { CumulativeZeros(|bounds|, |bounds| - 1); }
    } else {
      var front, v := seen[..|seen| - 1], seen[|seen| - 1];
      NothingLost(bounds, front);
      var at := BucketOf(bounds, v);
      if at < |bounds| { CumulativeBump(TallyOf(bounds, front).counts, at, |bounds| - 1); }
    }
  }

  lemma CumulativeGrows(counts: seq<nat>, i: nat, j: nat)
    requires i <= j < |counts|
    ensures Cumulative(counts, i) <= Cumulative(counts, j)
    decreases j
  {
    if i < j { CumulativeGrows(counts, i, j - 1); }
  }

  /** Whatever was observed, in whatever order, over ascending bounds: each cumulative bucket
      is the number of observations at or below its bound, the buckets never decrease, and
      `+Inf` is the number of all observations. */
  lemma HistogramCorrect(bounds: seq<real>, seen: seq<real>)
    requires Rising(bounds)
    ensures var t := TallyOf(bounds, seen);
            (forall i :: 0 <= i < |bounds| ==> Cumulative(t.counts, i) == AtMost(seen, bounds[i])) &&
            (forall i, j :: 0 <= i <= j < |bounds| ==> Cumulative(t.counts, i) <= Cumulative(t.counts, j)) &&
            Everything(t) == t.count == |seen| && t.total == Sum(seen)
  {
    var t := TallyOf(bounds, seen);
    forall i | 0 <= i < |bounds| ensures Cumulative(t.counts, i) == AtMost(seen, bounds[i]) {
      BucketsCount(bounds, seen, i);
    }
    forall i, j | 0 <= i <= j < |bounds| ensures Cumulative(t.counts, i) <= Cumulative(t.counts, j) {
      CumulativeGrows(t.counts, i, j);
    }
    NothingLost(bounds, seen);
  }

  // ---------------------------------------------------------------------------------
  // Updates commute
  // ---------------------------------------------------------------------------------

  lemma BumpCommutes<K>(m: map<K, nat>, a: K, b: K)
    ensures Bump(Bump(m, a), b) == Bump(Bump(m, b), a)
  {
  }

  lemma AddCommutes(bounds: seq<real>, t: Tally, u: real, v: real)
    requires |t.counts| == |bounds|
    ensures AddTo(bounds, AddTo(bounds, t, u), v) == AddTo(bounds, AddTo(bounds, t, v), u)
  {
    var i, j := BucketOf(bounds, u), BucketOf(bounds, v);
    if i < |bounds| && j < |bounds| {
      var left := t.counts[i := t.counts[i] + 1];
      var right := t.counts[j := t.counts[j] + 1];
      assert left[j := left[j] + 1] == right[i := right[i] + 1];
    }
  }

  lemma GrownCommutes<K>(bounds: seq<real>, m: map<K, Tally>, a: K, u: real, b: K, v: real)
    requires forall k :: k in {a, b} && k in m ==> |m[k].counts| == |bounds|
    ensures Grown(bounds, Grown(bounds, m, a, u), b, v) == Grown(bounds, Grown(bounds, m, b, v), a, u)
  {
    if a == b {
      var t := if a in m then m[a] else Empty(bounds);
      AddCommutes(bounds, t, u, v);
      assert Grown(bounds, Grown(bounds, m, a, u), b, v) == m[a := AddTo(bounds, AddTo(bounds, t, u), v)];
      assert Grown(bounds, Grown(bounds, m, b, v), a, u) == m[a := AddTo(bounds, AddTo(bounds, t, v), u)];
    }
  }

  lemma ApplyCommutes(t: Totals, u: Update, v: Update, ib: seq<real>, db: seq<real>)
    requires WellShaped(t, ib, db)
    ensures Apply(Apply(t, u, ib, db), v, ib, db) == Apply(Apply(t, v, ib, db), u, ib, db)
  {
    match (u, v)
    case (TicketInc(a), TicketInc(b)) => BumpCommutes(t.tickets, a, b);
    case (HandoffInc(a), HandoffInc(b)) => BumpCommutes(t.handoffs, a, b);
    case (ViolationInc(a), ViolationInc(b)) => BumpCommutes(t.violations, a, b);
    case (ToolInc(a, x), ToolInc(b, y)) => BumpCommutes(t.tools, (a, x), (b, y));
    case (IterationsSeen(a), IterationsSeen(b)) => GrownCommutes(ib, t.iterations, (), a as real, (), b as real);
    case (DurationSeen(a, x), DurationSeen(b, y)) => GrownCommutes(db, t.durations, a, Seconds(x), b, Seconds(y));
    case _ =>
  }

  lemma SwapLast(t: Totals, us: seq<Update>, fewer: seq<Update>, without: seq<Update>, u: Update, ib: seq<real>,
                 db: seq<real>)
    requires WellShaped(t, ib, db) && us != [] && without == fewer + [us[|us| - 1]]
    requires ApplyAll(t, us[..|us| - 1], ib, db) == Apply(ApplyAll(t, fewer, ib, db), u, ib, db)
    ensures ApplyAll(t, us, ib, db) == Apply(ApplyAll(t, without, ib, db), u, ib, db)
  {
    var last := us[|us| - 1];
    ApplyLast(t, fewer, last, ib, db);
    ApplyCommutes(ApplyAll(t, fewer, ib, db), u, last, ib, db);
  }

  function Except<T>(xs: seq<T>, k: nat): seq<T>
    requires k < |xs|
  {
    xs[..k] + xs[k + 1..]
  }

  lemma ExceptLast<T>(xs: seq<T>, k: nat)
    requires k < |xs|
    ensures Except(xs, k) == if k == |xs| - 1 then xs[..|xs| - 1] else Except(xs[..|xs| - 1], k) + [xs[|xs| - 1]]
  {
  }

  /** An update can as well come last. */
  lemma {:induction false} ApplyLater(t: Totals, us: seq<Update>, k: nat, ib: seq<real>, db: seq<real>)
    requires WellShaped(t, ib, db) && k < |us|
    ensures ApplyAll(t, us, ib, db) == Apply(ApplyAll(t, Except(us, k), ib, db), us[k], ib, db)
    decreases |us|
  {
    ExceptLast(us, k);
    if k < |us| - 1 {
      var front := us[..|us| - 1];
      ApplyLater(t, front, k, ib, db);
      SwapLast(t, us, Except(front, k), Except(us, k), us[k], ib, db);
    }
  }

  lemma RemoveOne<T>(xs: seq<T>, k: nat)
    requires k < |xs|
    ensures multiset(Except(xs, k)) == multiset(xs) - multiset{xs[k]}
  {
    assert xs == xs[..k] + [xs[k]] + xs[k + 1..];
  }

  /** The totals depend on which updates were made and how often, and not on their order: any
      interleaving of concurrent runs, family by family, leaves the same registry. */
  lemma {:induction false} OrderIrrelevant(t: Totals, a: seq<Update>, b: seq<Update>, ib: seq<real>, db: seq<real>)
    requires WellShaped(t, ib, db) && multiset(a) == multiset(b)
    ensures ApplyAll(t, a, ib, db) == ApplyAll(t, b, ib, db)
    decreases |b|
  {
    if b == [] {
      assert |multiset(a)| == 0;
    } else {
      var front, last := b[..|b| - 1], b[|b| - 1];
      assert b == front + [last];
      assert last in multiset(a);
      var k :| 0 <= k < |a| && a[k] == last;
      ApplyLater(t, a, k, ib, db);
      RemoveOne(a, k);
      OrderIrrelevant(t, Except(a, k), front, ib, db);
    }
  }

  // ---------------------------------------------------------------------------------
  // Counters count updates
  // ---------------------------------------------------------------------------------

  lemma BagOfLast(us: seq<Update>)
    requires us != []
    ensures multiset(us) == multiset(us[..|us| - 1]) + multiset{us[|us| - 1]}
  {
    assert us == us[..|us| - 1] + [us[|us| - 1]];
  }

  /** Each counter has grown by the number of its updates, and by nothing else. */
  ghost predicate Grew(before: Totals, after: Totals, bag: multiset<Update>) {
    (forall s :: Count(after.tickets, s) == Count(before.tickets, s) + bag[TicketInc(s)]) &&
    (forall r :: Count(after.handoffs, r) == Count(before.handoffs, r) + bag[HandoffInc(r)]) &&
    (forall c :: Count(after.violations, c) == Count(before.violations, c) + bag[ViolationInc(c)]) &&
    (forall tool, ok :: Count(after.tools, (tool, ok)) == Count(before.tools, (tool, ok)) + bag[ToolInc(tool, ok)])
  }

  lemma ApplyCounts(t: Totals, u: Update, ib: seq<real>, db: seq<real>, after: Totals)
    requires WellShaped(t, ib, db) && after == Apply(t, u, ib, db)
    ensures forall s :: Count(after.tickets, s) == Count(t.tickets, s) + if u == TicketInc(s) then 1 else 0
    ensures forall r :: Count(after.handoffs, r) == Count(t.handoffs, r) + if u == HandoffInc(r) then 1 else 0
    ensures forall c :: Count(after.violations, c) == Count(t.violations, c) + if u == ViolationInc(c) then 1 else 0
    ensures forall tool, ok ::
              Count(after.tools, (tool, ok)) == Count(t.tools, (tool, ok)) + if u == ToolInc(tool, ok) then 1 else 0
  {
  }

  lemma OneMoreIn(bag: multiset<Update>, u: Update)
    ensures forall x :: (bag + multiset{u})[x] == bag[x] + if u == x then 1 else 0
  {
  }

  lemma GrowOne(before: Totals, t: Totals, u: Update, ib: seq<real>, db: seq<real>, bag: multiset<Update>)
    requires WellShaped(t, ib, db) && Grew(before, t, bag)
    ensures Grew(before, Apply(t, u, ib, db), bag + multiset{u})
  {
    ApplyCounts(t, u, ib, db, Apply(t, u, ib, db));
    OneMoreIn(bag, u);
  }

  lemma {:induction false} CountersGrow(t: Totals, us: seq<Update>, ib: seq<real>, db: seq<real>)
    requires WellShaped(t, ib, db)
    ensures Grew(t, ApplyAll(t, us, ib, db), multiset(us))
  {
    if us == [] {
    } else {
      CountersGrow(t, us[..|us| - 1], ib, db);
      BagOfLast(us);
      GrowOne(t, ApplyAll(t, us[..|us| - 1], ib, db), us[|us| - 1], ib, db, multiset(us[..|us| - 1]));
    }
  }

  /** Each counter is the number of its updates. */
  ghost predicate Counted(t: Totals, bag: multiset<Update>) { Grew(NO_TOTALS, t, bag) }

  lemma CountersCount(us: seq<Update>, ib: seq<real>, db: seq<real>)
    ensures Counted(ApplyAll(NO_TOTALS, us, ib, db), multiset(us))
  {
    CountersGrow(NO_TOTALS, us, ib, db);
  }

  /** The iteration counts observed, and the durations observed under one status. */
  function IterationValues(us: seq<Update>): seq<real> {
    if us == [] then []
    else
      var u := us[|us| - 1];
      IterationValues(us[..|us| - 1]) + if u.IterationsSeen? then [u.n as real] else []
  }

  function DurationValues(us: seq<Update>, s: TicketStatus): seq<real> {
    if us == [] then []
    else
      var u := us[|us| - 1];
      DurationValues(us[..|us| - 1], s) + if u.DurationSeen? && u.status == s then [Seconds(u.microseconds)] else []
  }

  function TallyAt<K>(bounds: seq<real>, m: map<K, Tally>, key: K): Tally { if key in m then m[key] else Empty(bounds) }

  lemma SeriesStep(t: Totals, u: Update, ib: seq<real>, db: seq<real>, s: TicketStatus)
    requires WellShaped(t, ib, db)
    ensures TallyAt(ib, Apply(t, u, ib, db).iterations, ()) ==
            if u.IterationsSeen? then AddTo(ib, TallyAt(ib, t.iterations, ()), u.n as real)
            else TallyAt(ib, t.iterations, ())
    ensures TallyAt(db, Apply(t, u, ib, db).durations, s) ==
            if u.DurationSeen? && u.status == s then AddTo(db, TallyAt(db, t.durations, s), Seconds(u.microseconds))
            else TallyAt(db, t.durations, s)
  {
  }

  lemma {:induction false} IterationsTally(us: seq<Update>, ib: seq<real>, db: seq<real>)
    ensures TallyAt(ib, ApplyAll(NO_TOTALS, us, ib, db).iterations, ()) == TallyOf(ib, IterationValues(us))
  {
    if us == [] {
    } else {
      var front, u := us[..|us| - 1], us[|us| - 1];
      IterationsTally(front, ib, db);
      SeriesStep(ApplyAll(NO_TOTALS, front, ib, db), u, ib, db, Processing);
      assert IterationValues(front) + [] == IterationValues(front);
      if u.IterationsSeen? { TallyNext(ib, IterationValues(front), u.n as real); }
    }
  }

  lemma {:induction false} DurationsTally(us: seq<Update>, ib: seq<real>, db: seq<real>, s: TicketStatus)
    ensures TallyAt(db, ApplyAll(NO_TOTALS, us, ib, db).durations, s) == TallyOf(db, DurationValues(us, s))
  {
    if us == [] {
    } else {
      var front, u := us[..|us| - 1], us[|us| - 1];
      DurationsTally(front, ib, db, s);
      SeriesStep(ApplyAll(NO_TOTALS, front, ib, db), u, ib, db, s);
      assert DurationValues(front, s) + [] == DurationValues(front, s);
      if u.DurationSeen? && u.status == s { TallyNext(db, DurationValues(front, s), Seconds(u.microseconds)); }
    }
  }

  lemma TallyNext(bounds: seq<real>, seen: seq<real>, v: real)
    ensures TallyOf(bounds, seen + [v]) == AddTo(bounds, TallyOf(bounds, seen), v)
  {
    assert (seen + [v])[..|seen|] == seen;
  }

  // ---------------------------------------------------------------------------------
  // From any totals on
  // ---------------------------------------------------------------------------------

  /** More observations, one after the other. */
  function AddAll(bounds: seq<real>, t: Tally, seen: seq<real>): (r: Tally)
    requires |t.counts| == |bounds|
    ensures |r.counts| == |bounds|
  {
    if seen == [] then t else AddTo(bounds, AddAll(bounds, t, seen[..|seen| - 1]), seen[|seen| - 1])
  }

  lemma AddNext(bounds: seq<real>, t: Tally, seen: seq<real>, v: real)
    requires |t.counts| == |bounds|
    ensures AddAll(bounds, t, seen + [v]) == AddTo(bounds, AddAll(bounds, t, seen), v)
  {
    assert (seen + [v])[..|seen|] == seen;
  }

  lemma TalliesShaped(t: Totals, ib: seq<real>, db: seq<real>, s: TicketStatus)
    requires WellShaped(t, ib, db)
    ensures Shaped(ib, TallyAt(ib, t.iterations, ())) && Shaped(db, TallyAt(db, t.durations, s))
  {
  }

  /** The series grow by the values observed. */
  lemma {:induction false} IterationsGrow(t: Totals, us: seq<Update>, ib: seq<real>, db: seq<real>)
    requires WellShaped(t, ib, db) && Shaped(ib, TallyAt(ib, t.iterations, ()))
    ensures TallyAt(ib, ApplyAll(t, us, ib, db).iterations, ()) ==
            AddAll(ib, TallyAt(ib, t.iterations, ()), IterationValues(us))
  {
    if us == [] {
    } else {
      var front, u := us[..|us| - 1], us[|us| - 1];
      IterationsGrow(t, front, ib, db);
      SeriesStep(ApplyAll(t, front, ib, db), u, ib, db, Processing);
      assert IterationValues(front) + [] == IterationValues(front);
      if u.IterationsSeen? { AddNext(ib, TallyAt(ib, t.iterations, ()), IterationValues(front), u.n as real); }
    }
  }

  lemma {:induction false} DurationsGrow(t: Totals, us: seq<Update>, ib: seq<real>, db: seq<real>, s: TicketStatus)
    requires WellShaped(t, ib, db) && Shaped(db, TallyAt(db, t.durations, s))
    ensures TallyAt(db, ApplyAll(t, us, ib, db).durations, s) ==
            AddAll(db, TallyAt(db, t.durations, s), DurationValues(us, s))
  {
    if us == [] {
    } else {
      var front, u := us[..|us| - 1], us[|us| - 1];
      DurationsGrow(t, front, ib, db, s);
      SeriesStep(ApplyAll(t, front, ib, db), u, ib, db, s);
      assert DurationValues(front, s) + [] == DurationValues(front, s);
      if u.DurationSeen? && u.status == s {
        AddNext(db, TallyAt(db, t.durations, s), DurationValues(front, s), Seconds(u.microseconds));
      }
    }
  }

  /** Durations are observed in seconds. */
  lemma SecondsOf(n: int)
    ensures Seconds(n * 1000000) == n as real
  {
  }
}

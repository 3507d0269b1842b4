/** The table store refines the dictionary store: what holds of the tables, what a reader
    sees, and whole sequences of calls. */
module StoreRefinement {
  import opened Wrappers
  import opened Domain
  import opened Trace
  import opened Codec
  import opened Sorting
  import opened Tickets
  import opened Stores

  // ---------------------------------------------------------------------------------
  // What the tables keep
  // ---------------------------------------------------------------------------------

  /** The table constraints, and rows that read back: each step belongs to a ticket, stands
      under its own number, and is a valid step. */
  ghost predicate WellKept(db: Tables) {
    (forall id :: id in db.tickets ==> ValidRequest(db.tickets[id].request) && db.tickets[id].resolution.Checked()) &&
    (forall k :: k in db.steps ==> k.id in db.tickets && RowOf(db.steps[k], k))
  }

  ghost predicate RowOf(row: StepRow, k: StepKey) { row.number == k.number && FromRow(row).Some? }

  lemma {:induction false} ReadRowsExact(steps: StepTable, keys: seq<StepKey>)
    requires forall k :: k in keys ==> k in steps && RowOf(steps[k], k)
    ensures ReadRows(steps, keys).Some? && |ReadRows(steps, keys).value| == |keys|
    ensures forall i :: 0 <= i < |keys| ==> FromRow(steps[keys[i]]) == Some(ReadRows(steps, keys).value[i])
  {
    if keys == [] {
    } else {
      assert keys[0] in keys;
      ReadRowsExact(steps, keys[1..]);
    }
  }

  lemma {:induction false} ReadRowsSame(a: StepTable, b: StepTable, keys: seq<StepKey>)
    requires forall k :: k in keys ==> k in a && k in b && a[k] == b[k]
    ensures ReadRows(a, keys) == ReadRows(b, keys)
  {
    if keys == [] {
    } else {
      assert keys[0] in keys;
      ReadRowsSame(a, b, keys[1..]);
    }
  }

  /** Rows and the steps read from them, one for one. */
  ghost predicate ReadAs(steps: StepTable, keys: seq<StepKey>, read: seq<TraceStep>) {
    |read| == |keys| && forall i :: 0 <= i < |keys| ==> keys[i] in steps && FromRow(steps[keys[i]]) == Some(read[i])
  }

  lemma ReadInOrder(steps: StepTable, keys: seq<StepKey>, read: seq<TraceStep>)
    requires ReadAs(steps, keys, read) && forall k :: k in keys ==> k in steps && RowOf(steps[k], k)
    requires forall i, j :: 0 <= i < j < |keys| ==> keys[i].number < keys[j].number
    ensures ValidTrace(read) && forall i, j :: 0 <= i < j < |read| ==> read[i].number < read[j].number
  {
    forall i | 0 <= i < |keys| ensures ValidStep(read[i]) && read[i].number == keys[i].number {
      assert keys[i] in keys;
      ReadStepsAreValid(steps[keys[i]]);
    }
  }

  lemma ReadMembers(steps: StepTable, id: string, keys: seq<StepKey>, read: seq<TraceStep>, s: TraceStep)
    requires ReadAs(steps, keys, read) && forall k :: k in keys <==> k in steps && k.id == id
    ensures s in read <==> exists k :: k in steps && k.id == id && FromRow(steps[k]) == Some(s)
  {
    if s in read {
      var i :| 0 <= i < |read| && read[i] == s;
      assert keys[i] in keys;
    }
    if k :| k in steps && k.id == id && FromRow(steps[k]) == Some(s) {
      assert k in keys;
      var i :| 0 <= i < |keys| && keys[i] == k;
      assert read[i] == s;
    }
  }

  /** The steps of a ticket as a reader sees them: valid and strictly ascending, one for each
      row. */
  lemma StoredTrace(db: Tables, id: string)
    requires WellKept(db)
    ensures var read := ReadRows(db.steps, Ascend(KeysOf(db.steps, id), id));
            read.Some? && ValidTrace(read.value) &&
            (forall i, j :: 0 <= i < j < |read.value| ==> read.value[i].number < read.value[j].number) &&
            (forall s :: s in read.value <==>
              exists k :: k in db.steps && k.id == id && FromRow(db.steps[k]) == Some(s))
  {
    var keys := Ascend(KeysOf(db.steps, id), id);
    ReadRowsExact(db.steps, keys);
    var read := ReadRows(db.steps, keys).value;
    ReadInOrder(db.steps, keys, read);
    forall s ensures s in read <==> exists k :: k in db.steps && k.id == id && FromRow(db.steps[k]) == Some(s) {
      ReadMembers(db.steps, id, keys, read, s);
    }
  }

  /** Reading fails in exactly one case: a ticket replied to with an empty reply, which the
      table accepts and the ticket's validator does not. */
  lemma GetFailsExactly(db: Tables, id: string)
    requires WellKept(db)
    ensures TableGet(db, id).Failure? <==>
            id in db.tickets && db.tickets[id].resolution == Resolution(Replied, Some(""), None)
  {
    StoredTrace(db, id);
    if id in db.tickets { ChecksDiffer(db.tickets[id].resolution); }
  }

  // ---------------------------------------------------------------------------------
  // The inserts
  // ---------------------------------------------------------------------------------

  predicate InTrace(trace: seq<TraceStep>, k: StepKey, id: string) {
    k.id == id && exists s | s in trace :: s.number == k.number
  }

  /** What the table holds after the inserts of `trace` under `id`. */
  ghost predicate Inserted(before: StepTable, after: StepTable, id: string, trace: seq<TraceStep>) {
    (forall k :: k in after <==> k in before || InTrace(trace, k, id)) &&
    (forall k :: k in before ==> after[k] == before[k]) &&
    (forall s :: s in trace ==> StepKey(id, s.number) in after && after[StepKey(id, s.number)] == ToRow(s))
  }

  lemma InsertOne(before: StepTable, front: StepTable, id: string, trace: seq<TraceStep>, last: TraceStep)
    requires Inserted(before, front, id, trace) && StepKey(id, last.number) !in front
    ensures Inserted(before, front[StepKey(id, last.number) := ToRow(last)], id, trace + [last])
  {
    var after := front[StepKey(id, last.number) := ToRow(last)];
    var whole := trace + [last];
    forall k ensures InTrace(whole, k, id) <==> InTrace(trace, k, id) || k == StepKey(id, last.number) {
      if k == StepKey(id, last.number) { assert last in whole; }
      if InTrace(trace, k, id) {
        var s :| s in trace && s.number == k.number;
        assert s in whole;
      }
    }
    forall s | s in whole ensures StepKey(id, s.number) in after && after[StepKey(id, s.number)] == ToRow(s) {
      if s in trace { assert StepKey(id, s.number) in front; }
    }
  }

  lemma DistinctFront(front: seq<TraceStep>, last: TraceStep)
    ensures Distinct(front + [last]) <==> Distinct(front) && forall s :: s in front ==> s.number != last.number
  {
    var whole := front + [last];
    if Distinct(whole) {
      forall i, j | 0 <= i < j < |front| ensures front[i].number != front[j].number {
        assert whole[i] == front[i] && whole[j] == front[j];
      }
      forall s | s in front ensures s.number != last.number {
        var i :| 0 <= i < |front| && front[i] == s;
        assert whole[i] == s && whole[|front|] == last;
      }
    }
    if Distinct(front) && forall s :: s in front ==> s.number != last.number {
      forall i, j | 0 <= i < j < |whole| ensures whole[i].number != whole[j].number {
        assert whole[i] == front[i];
        if j == |front| { assert front[i] in front; }
      }
    }
  }

  /** The inserts go through exactly when no number repeats, and then add one row a step. */
  lemma {:induction false} InsertAllExact(steps: StepTable, id: string, trace: seq<TraceStep>)
    requires forall k :: k in steps ==> k.id != id
    ensures InsertAll(steps, id, trace).Some? <==> Distinct(trace)
    ensures Distinct(trace) ==> Inserted(steps, InsertAll(steps, id, trace).value, id, trace)
  {
    if trace == [] {
    } else {
      var front, last := trace[..|trace| - 1], trace[|trace| - 1];
      assert trace == front + [last];
      InsertAllExact(steps, id, front);
      DistinctFront(front, last);
      if Distinct(front) {
        var inserted := InsertAll(steps, id, front).value;
        var k := StepKey(id, last.number);
        assert k in inserted <==> InTrace(front, k, id);
        if Distinct(trace) { InsertOne(steps, inserted, id, front, last); }
      }
    }
  }

  // ---------------------------------------------------------------------------------
  // A finalised trace is read back in order
  // ---------------------------------------------------------------------------------

  lemma {:induction false} NoneWithKey(xs: seq<TraceStep>, k: int)
    requires forall x :: x in xs ==> x.number != k
    ensures WithKey(xs, Number, k) == []
  {
    if xs == [] {
    } else {
      assert xs[0] in xs;
      NoneWithKey(xs[1..], k);
    }
  }

  lemma {:induction false} OneWithKey(xs: seq<TraceStep>, x: TraceStep)
    requires Distinct(xs) && x in xs
    ensures WithKey(xs, Number, x.number) == [x]
  {
    var rest := xs[1..];
    assert Distinct(rest) by {
      assert forall i, j :: 0 <= i < j < |rest| ==> rest[i] == xs[i + 1] && rest[j] == xs[j + 1];
    }
    if xs[0] == x {
      forall y | y in rest ensures y.number != x.number {
        var i :| 0 <= i < |rest| && rest[i] == y;
        assert xs[i + 1] == y;
      }
      NoneWithKey(rest, x.number);
    } else {
      var i :| 0 <= i < |xs| && xs[i] == x;
      assert xs[0].number != xs[i].number;
      assert rest[i - 1] == x;
      OneWithKey(rest, x);
    }
  }

  /** Strictly ascending steps are what sorting makes of any listing of them. */
  lemma AscendingIsSorted(read: seq<TraceStep>, trace: seq<TraceStep>)
    requires forall i, j :: 0 <= i < j < |read| ==> read[i].number < read[j].number
    requires Distinct(trace) && forall s :: s in read <==> s in trace
    ensures read == SortBy(trace, Number)
  {
    var sorted := SortBy(trace, Number);
    SortByCorrect(trace, Number, 0);
    assert Ascending(read, Number);
    forall k ensures WithKey(read, Number, k) == WithKey(sorted, Number, k) {
      SortByCorrect(trace, Number, k);
      if s :| s in trace && s.number == k {
        OneWithKey(trace, s);
        OneWithKey(read, s);
      } else {
        NoneWithKey(trace, k);
        NoneWithKey(read, k);
      }
    }
    StableSortUnique(read, sorted, Number);
  }

  lemma RowsReadBack(steps: StepTable, after: StepTable, id: string, trace: seq<TraceStep>, s: TraceStep)
    requires forall k :: k in steps ==> k.id != id
    requires ValidTrace(trace) && Inserted(steps, after, id, trace)
    ensures s in trace <==> exists k :: k in after && k.id == id && FromRow(after[k]) == Some(s)
  {
    if s in trace {
      RowRoundTrip(s);
      assert FromRow(after[StepKey(id, s.number)]) == Some(s);
    }
    if k :| k in after && k.id == id && FromRow(after[k]) == Some(s) {
      assert InTrace(trace, k, id);
      var t :| t in trace && t.number == k.number;
      RowRoundTrip(t);
      assert after[StepKey(id, t.number)] == ToRow(t);
    }
  }

  lemma OtherKeys(before: StepTable, after: StepTable, id: string, trace: seq<TraceStep>, other: string)
    requires other != id && Inserted(Without(before, id), after, id, trace)
    ensures KeysOf(after, other) == KeysOf(before, other)
    ensures ReadRows(after, Ascend(KeysOf(after, other), other)) ==
            ReadRows(before, Ascend(KeysOf(before, other), other))
  {
    assert forall k :: k in KeysOf(after, other) <==> k in KeysOf(before, other);
    ReadRowsSame(after, before, Ascend(KeysOf(before, other), other));
  }

  lemma KeepsWell(db: Tables, now: int, id: string, r: Resolution, trace: seq<TraceStep>)
    requires WellKept(db) && ValidTrace(trace) && TableFinalise(db, now, id, r, trace).Success?
    ensures WellKept(TableFinalise(db, now, id, r, trace).value)
  {
    var after := TableFinalise(db, now, id, r, trace).value;
    var cleared := Without(db.steps, id);
    InsertAllExact(cleared, id, trace);
    forall k | k in after.steps ensures k.id in after.tickets && RowOf(after.steps[k], k) {
      if k !in cleared {
        var s :| s in trace && s.number == k.number;
        RowRoundTrip(s);
        assert after.steps[StepKey(id, s.number)] == ToRow(s);
      }
    }
  }

  /** The steps a reader finds under a ticket. */
  function TraceIn(db: Tables, id: string): Option<seq<TraceStep>> {
    ReadRows(db.steps, Ascend(KeysOf(db.steps, id), id))
  }

  /** A successful finalise replaces the steps of its ticket by the sorted trace and leaves
      those of every other ticket. */
  lemma FinaliseTraces(db: Tables, now: int, id: string, r: Resolution, trace: seq<TraceStep>, other: string)
    requires WellKept(db) && ValidTrace(trace) && TableFinalise(db, now, id, r, trace).Success?
    ensures TraceIn(TableFinalise(db, now, id, r, trace).value, other) ==
            if other == id then Some(SortBy(trace, Number)) else TraceIn(db, other)
  {
    var after := TableFinalise(db, now, id, r, trace).value;
    var cleared := Without(db.steps, id);
    InsertAllExact(cleared, id, trace);
    if other != id {
      OtherKeys(db.steps, after.steps, id, trace, other);
    } else {
      KeepsWell(db, now, id, r, trace);
      StoredTrace(after, id);
      var read := TraceIn(after, id).value;
      forall s ensures s in read <==> s in trace {
        RowsReadBack(cleared, after.steps, id, trace, s);
      }
      AscendingIsSorted(read, trace);
    }
  }

  /** What a reader sees after a successful finalise: that ticket with its new state and the
      sorted trace, and every other ticket as before. */
  lemma FinaliseSeen(db: Tables, now: int, id: string, r: Resolution, trace: seq<TraceStep>, other: string)
    requires WellKept(db) && ValidTrace(trace) && TableFinalise(db, now, id, r, trace).Success?
    ensures var after := TableFinalise(db, now, id, r, trace).value;
            if other != id then TableGet(after, other) == TableGet(db, other)
            else
              var row := db.tickets[id];
              TableGet(after, id) ==
              if r.Coherent() then Success(Some(Ticket(id, row.request, r, row.createdAt, now, SortBy(trace, Number))))
              else Failure(Invalid)
  {
    FinaliseTraces(db, now, id, r, trace, other);
    if other == id { SortedTraceValid(trace); }
  }

  // ---------------------------------------------------------------------------------
  // One call on both stores
  // ---------------------------------------------------------------------------------

  /** The same ticket, up to when it was last touched; exactly the same if `exact`. */
  predicate Same(exact: bool, a: Ticket, b: Ticket) {
    a.(updatedAt := b.updatedAt) == b && (exact ==> a.updatedAt == b.updatedAt)
  }

  ghost predicate SeenAlike(exact: bool, m: Memory, db: Tables, id: string)
    requires id in m
  {
    TableGet(db, id).Success? && TableGet(db, id).value.Some? && Same(exact, m[id], TableGet(db, id).value.value)
  }

  /** Both stores hold the same tickets, and a reader sees the same of each. */
  ghost predicate Refines(exact: bool, m: Memory, db: Tables) {
    WellKept(db) && m.Keys == db.tickets.Keys && forall id :: id in m ==> SeenAlike(exact, m, db, id)
  }

  lemma GetSame(db: Tables, after: Tables, id: string)
    requires id in db.tickets && id in after.tickets && db.tickets[id] == after.tickets[id] && after.steps == db.steps
    ensures TableGet(after, id) == TableGet(db, id)
  {
  }

  lemma FreshTicketSeen(db: Tables, t: Ticket)
    requires WellKept(db) && t.Valid() && TableCreate(db, t).Success?
    ensures TableGet(TableCreate(db, t).value, t.id) == Success(Some(t.(trace := [])))
  {
    assert KeysOf(db.steps, t.id) == {};
  }

  /** Creating a ticket: the same answer, and the stores stay alike. */
  lemma CreateRefines(exact: bool, m: Memory, db: Tables, t: Ticket)
    requires Refines(exact, m, db) && t.Valid()
    ensures match MemoryCreate(m, t)
            case Failure(x) => TableCreate(db, t) == Failure(x)
            case Success(m') => TableCreate(db, t).Success? && Refines(exact, m', TableCreate(db, t).value)
  {
    ChecksDiffer(t.resolution);
    if t.id !in m {
      var m', db' := MemoryCreate(m, t).value, TableCreate(db, t).value;
      FreshTicketSeen(db, t);
      forall id | id in m' ensures SeenAlike(exact, m', db', id) {
        if id != t.id {
          assert SeenAlike(exact, m, db, id);
          GetSame(db, db', id);
        }
      }
    }
  }

  lemma MemoryTicketsValid(exact: bool, m: Memory, db: Tables, id: string)
    requires Refines(exact, m, db) && id in m
    ensures m[id].Valid() && m[id].id == id
    ensures m[id].request == db.tickets[id].request && m[id].createdAt == db.tickets[id].createdAt
  {
    assert SeenAlike(exact, m, db, id);
  }

  lemma SortedTraceValid(trace: seq<TraceStep>)
    requires ValidTrace(trace)
    ensures ValidTrace(SortBy(trace, Number))
  {
    SameElements(trace, Number);
  }

  /** Finalising with a coherent outcome and distinct step numbers: the same answer, and the
      stores stay alike -- exactly alike, if the clocks agree. */
  lemma FinaliseRefines(exact: bool, m: Memory, db: Tables, now: int, now': int, id: string, r: Resolution,
                        trace: seq<TraceStep>)
    requires Refines(exact, m, db) && r.Coherent() && ValidTrace(trace) && Distinct(trace) && (exact ==> now == now')
    ensures match MemoryFinalise(m, now, id, r, trace)
            case Failure(x) => TableFinalise(db, now', id, r, trace) == Failure(x)
            case Success(m') =>
              TableFinalise(db, now', id, r, trace).Success? &&
                Refines(exact, m', TableFinalise(db, now', id, r, trace).value)
  {
    if id in m {
      MemoryTicketsValid(exact, m, db, id);
      SortedTraceValid(trace);
      InsertAllExact(Without(db.steps, id), id, trace);
      var m', db' := MemoryFinalise(m, now, id, r, trace).value, TableFinalise(db, now', id, r, trace).value;
      KeepsWell(db, now', id, r, trace);
      forall other | other in m' ensures SeenAlike(exact, m', db', other) {
        assert SeenAlike(exact, m, db, other);
        FinaliseSeen(db, now', id, r, trace, other);
      }
    }
  }

  /** Where the two part ways, for any outcome and trace: the tables take an empty reply the
      model refuses, and refuse a repeated number the dictionary takes. Everywhere else both
      succeed or both fail. */
  lemma FinalisePartsExactly(exact: bool, m: Memory, db: Tables, now: int, now': int, id: string, r: Resolution,
                             trace: seq<TraceStep>)
    requires Refines(exact, m, db) && ValidTrace(trace)
    ensures (MemoryFinalise(m, now, id, r, trace).Success? <==> TableFinalise(db, now', id, r, trace).Success?) <==>
            !(id in m && ((r == Resolution(Replied, Some(""), None) && Distinct(trace)) ||
              (r.Coherent() && !Distinct(trace))))
  {
    ChecksDiffer(r);
    InsertAllExact(Without(db.steps, id), id, trace);
    if id in m {
      MemoryTicketsValid(exact, m, db, id);
      SortedTraceValid(trace);
    }
  }
}

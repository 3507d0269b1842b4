/** Whole sequences of calls on both stores. */
module StoreRuns {
  import opened Wrappers
  import opened Trace
  import opened Tickets
  import opened Stores
  import opened StoreRefinement

  datatype Call = Create(t: Ticket) | Get(id: string) | Finalise(id: string, r: Resolution, trace: seq<TraceStep>)

  datatype Answer = Done | Found(found: Option<Ticket>) | Refused(e: StoreError)

  /** A store, its clock's next reading, and the answers it has given. */
  datatype State<T> = State(data: T, next: int, answers: seq<Answer>)

  function MemoryCall(s: State<Memory>, tick: int, call: Call): State<Memory> {
    match call
    case Create(t) =>
      (match MemoryCreate(s.data, t)
       case Success(m) => State(m, s.next, s.answers + [Done])
       case Failure(x) => s.(answers := s.answers + [Refused(x)]))
    case Get(id) => s.(answers := s.answers + [Found(if id in s.data then Some(s.data[id]) else None)])
    case Finalise(id, r, trace) =>
      var next := if id in s.data then s.next + tick else s.next;
      match MemoryFinalise(s.data, s.next, id, r, trace)
      case Success(m) => State(m, next, s.answers + [Done])
      case Failure(x) => State(s.data, next, s.answers + [Refused(x)])
  }

  function TableCall(s: State<Tables>, tick: int, call: Call): State<Tables> {
    match call
    case Create(t) =>
      (match TableCreate(s.data, t)
       case Success(db) => State(db, s.next, s.answers + [Done])
       case Failure(x) => s.(answers := s.answers + [Refused(x)]))
    case Get(id) =>
      (match TableGet(s.data, id)
       case Success(t) => s.(answers := s.answers + [Found(t)])
       case Failure(x) => s.(answers := s.answers + [Refused(x)]))
    case Finalise(id, r, trace) =>
      match TableFinalise(s.data, s.next, id, r, trace)
      case Success(db) => State(db, s.next + tick, s.answers + [Done])
      case Failure(x) => State(s.data, s.next + tick, s.answers + [Refused(x)])
  }

  function MemoryRun(calls: seq<Call>, start: int, tick: int): State<Memory> {
    if calls == [] then State(map[], start, [])
    else MemoryCall(MemoryRun(calls[..|calls| - 1], start, tick), tick, calls[|calls| - 1])
  }

  function TableRun(calls: seq<Call>, start: int, tick: int): State<Tables> {
    if calls == [] then State(EMPTY, start, [])
    else TableCall(TableRun(calls[..|calls| - 1], start, tick), tick, calls[|calls| - 1])
  }

  /** Arguments that exist: tickets and steps are validated when they are constructed. */
  predicate Constructed(call: Call) {
    match call
    case Create(t) => t.Valid()
    case Get(_) => true
    case Finalise(_, _, trace) => ValidTrace(trace)
  }

  /** What the pipeline passes: a coherent outcome, not an empty reply, and numbers that do
      not repeat. */
  predicate Proper(call: Call) {
    Constructed(call) && (call.Finalise? ==> call.r.Coherent() && Distinct(call.trace))
  }

  /** How often a finalise has met an unknown id. */
  function Misses(answers: seq<Answer>): nat {
    if answers == [] then 0
    else
      var last := answers[|answers| - 1];
      Misses(answers[..|answers| - 1]) + if last.Refused? && last.e.NotFound? then 1 else 0
  }

  // ---------------------------------------------------------------------------------
  // Invariants of every reachable state
  // ---------------------------------------------------------------------------------

  lemma CallKeepsWell(s: State<Tables>, tick: int, call: Call)
    requires WellKept(s.data) && Constructed(call)
    ensures WellKept(TableCall(s, tick, call).data)
  {
    match call
    case Create(t) => ChecksDiffer(t.resolution);
    case Get(_) =>
    case Finalise(id, r, trace) =>
      if TableFinalise(s.data, s.next, id, r, trace).Success? { KeepsWell(s.data, s.next, id, r, trace); }
  }

  ghost predicate AllValid(m: Memory) {
    forall id :: id in m ==> m[id].Valid() && m[id].id == id
  }

  lemma CallKeepsValid(s: State<Memory>, tick: int, call: Call)
    requires AllValid(s.data) && Constructed(call)
    ensures AllValid(MemoryCall(s, tick, call).data)
  {
  }

  /** Whatever the outcomes and traces passed, after any calls every ticket of the dictionary
      satisfies the status/reply/reason rule, every row of the tables satisfies the CHECK, and
      every step row belongs to a ticket and reads back. */
  lemma {:induction false} StoresStayCoherent(calls: seq<Call>, start: int, tick: int)
    requires forall c :: c in calls ==> Constructed(c)
    ensures AllValid(MemoryRun(calls, start, tick).data) && WellKept(TableRun(calls, start, tick).data)
  {
    if calls == [] {
    } else {
      var front := calls[..|calls| - 1];
      StoresStayCoherent(front, start, tick);
      CallKeepsValid(MemoryRun(front, start, tick), tick, calls[|calls| - 1]);
      CallKeepsWell(TableRun(front, start, tick), tick, calls[|calls| - 1]);
    }
  }

  // ---------------------------------------------------------------------------------
  // Refinement
  // ---------------------------------------------------------------------------------

  predicate Alike(exact: bool, a: Answer, b: Answer) {
    if a.Found? && a.found.Some? then b.Found? && b.found.Some? && Same(exact, a.found.value, b.found.value)
    else a == b
  }

  predicate AnswersAlike(exact: bool, a: seq<Answer>, b: seq<Answer>) {
    |a| == |b| && forall k | 0 <= k < |a| :: Alike(exact, a[k], b[k])
  }

  /** Both stores hold the same and have answered the same, and the table store's clock is
      ahead by one tick for each finalise of an unknown id. */
  ghost predicate InStep(exact: bool, m: State<Memory>, db: State<Tables>, tick: int) {
    Refines(exact, m.data, db.data) && AnswersAlike(exact, m.answers, db.answers) &&
    db.next == m.next + Misses(m.answers) * tick && (exact ==> Misses(m.answers) == 0)
  }

  lemma AnswerAdded(exact: bool, a: seq<Answer>, b: seq<Answer>, x: Answer, y: Answer)
    requires AnswersAlike(exact, a, b) && Alike(exact, x, y)
    ensures AnswersAlike(exact, a + [x], b + [y])
    ensures Misses(a + [x]) == Misses(a) + if x.Refused? && x.e.NotFound? then 1 else 0
  {
    assert (a + [x])[..|a|] == a;
  }

  lemma GetInStep(exact: bool, m: State<Memory>, db: State<Tables>, tick: int, id: string)
    requires InStep(exact, m, db, tick)
    ensures InStep(exact, MemoryCall(m, tick, Get(id)), TableCall(db, tick, Get(id)), tick)
  {
    if id in m.data { assert SeenAlike(exact, m.data, db.data, id); }
    var m', db' := MemoryCall(m, tick, Get(id)), TableCall(db, tick, Get(id));
    StaysInStep(exact, m, db, m', db', tick, m'.answers[|m.answers|], db'.answers[|db.answers|]);
  }

  /** A call that reads no clock and meets no unknown id. */
  lemma StaysInStep(exact: bool, m: State<Memory>, db: State<Tables>, m': State<Memory>, db': State<Tables>, tick: int,
                    x: Answer, y: Answer)
    requires InStep(exact, m, db, tick) && Refines(exact, m'.data, db'.data)
    requires m'.next == m.next && db'.next == db.next
    requires m'.answers == m.answers + [x] && db'.answers == db.answers + [y]
    requires Alike(exact, x, y) && !(x.Refused? && x.e.NotFound?)
    ensures InStep(exact, m', db', tick)
  {
    AnswerAdded(exact, m.answers, db.answers, x, y);
    assert Misses(m'.answers) == Misses(m.answers);
  }

  lemma CreateInStep(exact: bool, m: State<Memory>, db: State<Tables>, tick: int, t: Ticket)
    requires InStep(exact, m, db, tick) && t.Valid()
    ensures InStep(exact, MemoryCall(m, tick, Create(t)), TableCall(db, tick, Create(t)), tick)
  {
    CreateRefines(exact, m.data, db.data, t);
    var m', db' := MemoryCall(m, tick, Create(t)), TableCall(db, tick, Create(t));
    StaysInStep(exact, m, db, m', db', tick, m'.answers[|m.answers|], db'.answers[|db.answers|]);
  }

  lemma OneMore(misses: nat, tick: int)
    ensures (misses + 1) * tick == misses * tick + tick
  {
  }

  lemma MissInStep(exact: bool, m: State<Memory>, db: State<Tables>, tick: int, call: Call)
    requires InStep(exact, m, db, tick) && call.Finalise? && call.id !in m.data && !exact
    ensures InStep(exact, MemoryCall(m, tick, call), TableCall(db, tick, call), tick)
  {
    AnswerAdded(exact, m.answers, db.answers, Refused(NotFound(call.id)), Refused(NotFound(call.id)));
    OneMore(Misses(m.answers), tick);
  }

  lemma HitInStep(exact: bool, m: State<Memory>, db: State<Tables>, tick: int, call: Call)
    requires InStep(exact, m, db, tick) && call.Finalise? && Proper(call) && call.id in m.data
    ensures InStep(exact, MemoryCall(m, tick, call), TableCall(db, tick, call), tick)
  {
    FinaliseRefines(exact, m.data, db.data, m.next, db.next, call.id, call.r, call.trace);
    MemoryFinaliseFound(exact, m, db, tick, call);
    AnswerAdded(exact, m.answers, db.answers, Done, Done);
  }

  lemma FinaliseInStep(exact: bool, m: State<Memory>, db: State<Tables>, tick: int, call: Call)
    requires InStep(exact, m, db, tick) && call.Finalise? && Proper(call) && (exact ==> call.id in m.data)
    ensures InStep(exact, MemoryCall(m, tick, call), TableCall(db, tick, call), tick)
  {
    if call.id in m.data {
      HitInStep(exact, m, db, tick, call);
    } else {
      MissInStep(exact, m, db, tick, call);
    }
  }

  lemma MemoryFinaliseFound(exact: bool, m: State<Memory>, db: State<Tables>, tick: int, call: Call)
    requires InStep(exact, m, db, tick) && call.Finalise? && Proper(call) && call.id in m.data
    ensures MemoryFinalise(m.data, m.next, call.id, call.r, call.trace).Success?
  {
    MemoryTicketsValid(exact, m.data, db.data, call.id);
    SortedTraceValid(call.trace);
  }

  lemma MissesGrow(answers: seq<Answer>, more: Answer)
    ensures Misses(answers) <= Misses(answers + [more])
  {
    assert (answers + [more])[..|answers|] == answers;
  }

  lemma MemoryAnswers(s: State<Memory>, tick: int, call: Call) returns (answer: Answer)
    ensures MemoryCall(s, tick, call).answers == s.answers + [answer]
    ensures call.Finalise? && call.id !in s.data ==> answer == Refused(NotFound(call.id))
  {
    answer := MemoryCall(s, tick, call).answers[|s.answers|];
  }

  /** The stores stay in step over any calls the pipeline makes; exactly, as long as no
      finalise has met an unknown id. */
  lemma {:induction false} RunsInStep(exact: bool, calls: seq<Call>, start: int, tick: int)
    requires forall c :: c in calls ==> Proper(c)
    requires exact ==> Misses(MemoryRun(calls, start, tick).answers) == 0
    ensures InStep(exact, MemoryRun(calls, start, tick), TableRun(calls, start, tick), tick)
  {
    if calls == [] {
    } else {
      var front, call := calls[..|calls| - 1], calls[|calls| - 1];
      var m, db := MemoryRun(front, start, tick), TableRun(front, start, tick);
      var answer := MemoryAnswers(m, tick, call);
      MissesGrow(m.answers, answer);
      RunsInStep(exact, front, start, tick);
      match call
      case Create(t) => CreateInStep(exact, m, db, tick, t);
      case Get(id) => GetInStep(exact, m, db, tick, id);
      case Finalise(id, _, _) =>
        AnswerAdded(exact, m.answers, m.answers, answer, answer);
        FinaliseInStep(exact, m, db, tick, call);
    }
  }

  /** The two stores are interchangeable: over every sequence of calls with coherent outcomes
      and distinct step numbers, starting empty on clocks that agree, they answer every call
      alike -- the same tickets, traces and errors, apart from when a ticket was last touched,
      and the same in that too if no finalise met an unknown id. The table store's clock ends
      ahead by one tick for each that did. */
  lemma StoresAnswerAlike(calls: seq<Call>, start: int, tick: int)
    requires forall c :: c in calls ==> Proper(c)
    ensures var m, db := MemoryRun(calls, start, tick), TableRun(calls, start, tick);
            AnswersAlike(false, m.answers, db.answers) &&
            (Misses(m.answers) == 0 ==> m.answers == db.answers) &&
            db.next - m.next == Misses(m.answers) * tick
  {
    RunsInStep(false, calls, start, tick);
    var m, db := MemoryRun(calls, start, tick), TableRun(calls, start, tick);
    if Misses(m.answers) == 0 {
      RunsInStep(true, calls, start, tick);
      forall k | 0 <= k < |m.answers| ensures m.answers[k] == db.answers[k] {
        assert Alike(true, m.answers[k], db.answers[k]);
      }
    }
  }
}

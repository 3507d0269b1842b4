/**
 The two ticket stores behind one protocol: a dictionary of tickets, and two keyed tables
 with transactions.
 */
module Stores {
  import opened Wrappers
  import opened Domain
  import opened Trace
  import opened Codec
  import opened Sorting
  import opened Tickets

  // ---------------------------------------------------------------------------------
  // What each operation does to the data
  // ---------------------------------------------------------------------------------

  type Memory = map<string, Ticket>

  function MemoryCreate(m: Memory, t: Ticket): Result<Memory, StoreError> {
    if t.id in m then Failure(AlreadyExists(t.id)) else Success(m[t.id := t.(trace := [])])
  }

  function MemoryFinalise(m: Memory, now: int, id: string, r: Resolution,
                          trace: seq<TraceStep>): Result<Memory, StoreError> {
    if id !in m then Failure(NotFound(id))
    else
      var t := m[id].(resolution := r, updatedAt := now, trace := SortBy(trace, Number));
      if t.Valid() then Success(m[id := t]) else Failure(Invalid)
  }

  /** A row of the ticket table. */
  datatype TicketRow = TicketRow(request: Request, resolution: Resolution, createdAt: int, updatedAt: int)

  /** The primary key of the step table. */
  datatype StepKey = StepKey(id: string, number: int)

  type StepTable = map<StepKey, StepRow>

  /** The two tables, by primary key. */
  datatype Tables = Tables(tickets: map<string, TicketRow>, steps: StepTable)

  const EMPTY := Tables(map[], map[])

  function TableCreate(db: Tables, t: Ticket): Result<Tables, StoreError> {
    if !t.resolution.Checked() then Failure(Integrity)
    else if t.id in db.tickets then Failure(AlreadyExists(t.id))
    else Success(db.(tickets := db.tickets[t.id := TicketRow(t.request, t.resolution, t.createdAt, t.updatedAt)]))
  }

  function Without(steps: StepTable, id: string): StepTable {
    map k | k in steps && k.id != id :: steps[k]
  }

  /** The inserts of a trace, row by row; a key already there fails. */
  function InsertAll(steps: StepTable, id: string, trace: seq<TraceStep>): Option<StepTable> {
    if trace == [] then Some(steps)
    else
      var last := trace[|trace| - 1];
      var front := InsertAll(steps, id, trace[..|trace| - 1]);
      if front.None? || StepKey(id, last.number) in front.value then None
      else Some(front.value[StepKey(id, last.number) := ToRow(last)])
  }

  function TableFinalise(db: Tables, now: int, id: string, r: Resolution,
                         trace: seq<TraceStep>): Result<Tables, StoreError> {
    if id !in db.tickets then Failure(NotFound(id))
    else if !r.Checked() then Failure(Integrity)
    else
      var steps := InsertAll(Without(db.steps, id), id, trace);
      if steps.None? then Failure(Integrity)
      else Success(Tables(db.tickets[id := db.tickets[id].(resolution := r, updatedAt := now)], steps.value))
  }

  /** The inserts before the `i`-th are in the table, and the key of the `i`-th was already. */
  predicate StoppedAt(before: StepTable, after: StepTable, id: string, trace: seq<TraceStep>, i: nat)
    requires i < |trace|
  {
    InsertAll(before, id, trace[..i]) == Some(after) && StepKey(id, trace[i].number) in after
  }

  predicate IsLeast(k: StepKey, keys: set<StepKey>) {
    k in keys && forall j | j in keys :: k.number <= j.number
  }

  /** `WHERE ticket_id = ? ORDER BY seq`: the keys of one ticket by ascending number. */
  function Ascend(keys: set<StepKey>, id: string): (r: seq<StepKey>)
    requires forall k :: k in keys ==> k.id == id
    ensures forall k :: k in r <==> k in keys
    ensures forall i, j :: 0 <= i < j < |r| ==> r[i].number < r[j].number
  {
    if keys == {} then []
    else
      LeastExists(keys, id);
      var least :| IsLeast(least, keys);
      [least] + Ascend(keys - {least}, id)
  }

  lemma LeastExists(keys: set<StepKey>, id: string)
    requires keys != {} && forall k :: k in keys ==> k.id == id
    ensures exists k :: IsLeast(k, keys)
    ensures forall j, k :: IsLeast(j, keys) && IsLeast(k, keys) ==> j == k
  {
    var x :| x in keys;
    var rest := keys - {x};
    assert keys == rest + {x};
    if rest == {} {
      assert IsLeast(x, keys);
    } else {
      LeastExists(rest, id);
      var y :| IsLeast(y, rest);
      assert IsLeast(if x.number <= y.number then x else y, keys);
    }
  }

  function KeysOf(steps: StepTable, id: string): set<StepKey> {
    set k | k in steps && k.id == id
  }

  /** Rows read back one by one. */
  function ReadRows(steps: StepTable, keys: seq<StepKey>): Option<seq<TraceStep>>
    requires forall k :: k in keys ==> k in steps
  {
    if keys == [] then Some([])
    else
      var first, rest := FromRow(steps[keys[0]]), ReadRows(steps, keys[1..]);
      if first.None? || rest.None? then None else Some([first.value] + rest.value)
  }

  /** Reading constructs the ticket anew, so its validator runs again. */
  function TableGet(db: Tables, id: string): Result<Option<Ticket>, StoreError> {
    if id !in db.tickets then Success(None)
    else
      var row := db.tickets[id];
      var trace := ReadRows(db.steps, Ascend(KeysOf(db.steps, id), id));
      if trace.None? then Failure(Invalid)
      else
        var t := Ticket(id, row.request, row.resolution, row.createdAt, row.updatedAt, trace.value);
        if t.Valid() then Success(Some(t)) else Failure(Invalid)
  }

  // ---------------------------------------------------------------------------------
  // The stores
  // ---------------------------------------------------------------------------------

  class MemoryRepository {
    const clock: FrozenClock
    var tickets: Memory

    constructor (clock: FrozenClock)
      ensures this.clock == clock && tickets == map[]
    {
      this.clock := clock;
      tickets := map[];
    }

    method Create(t: Ticket) returns (r: Result<(), StoreError>)
      modifies this`tickets
      ensures match MemoryCreate(old(tickets), t)
              case Success(m) => r.Success? && tickets == m
              case Failure(x) => r == Failure(x) && tickets == old(tickets)
    {
      if t.id in tickets {
        return Failure(AlreadyExists(t.id));
      }
      tickets := tickets[t.id := t.(trace := [])];
      return Success(());
    }

    method Get(id: string) returns (t: Option<Ticket>)
      ensures t == if id in tickets then Some(tickets[id]) else None
    {
      t := if id in tickets then Some(tickets[id]) else None;
    }

    /** An unknown id is discovered before the clock is read. */
    method Finalise(id: string, resolution: Resolution, trace: seq<TraceStep>) returns (r: Result<(), StoreError>)
      modifies this`tickets, clock
      ensures clock.next == old(clock.next) + if id in old(tickets) then clock.tick else 0
      ensures match MemoryFinalise(old(tickets), old(clock.next), id, resolution, trace)
              case Success(m) => r.Success? && tickets == m
              case Failure(x) => r == Failure(x) && tickets == old(tickets)
    {
      if id !in tickets {
        return Failure(NotFound(id));
      }
      var now := clock.Now();
      var t := tickets[id].(resolution := resolution, updatedAt := now, trace := SortBy(trace, Number));
      if !t.Valid() {
        return Failure(Invalid);
      }
      tickets := tickets[id := t];
      return Success(());
    }
  }

  class SqliteRepository {
    const clock: FrozenClock
    var tickets: map<string, TicketRow>
    var steps: StepTable

    function Data(): Tables
      reads this
    {
      Tables(tickets, steps)
    }

    constructor (clock: FrozenClock)
      ensures this.clock == clock && Data() == EMPTY
    {
      this.clock := clock;
      tickets := map[];
      steps := map[];
    }

    method Create(t: Ticket) returns (r: Result<(), StoreError>)
      modifies this`tickets
      ensures match TableCreate(old(Data()), t)
              case Success(db) => r.Success? && Data() == db
              case Failure(x) => r == Failure(x) && Data() == old(Data())
    {
      if !t.resolution.Checked() {
        return Failure(Integrity);
      }
      if t.id in tickets {
        return Failure(AlreadyExists(t.id));
      }
      tickets := tickets[t.id := TicketRow(t.request, t.resolution, t.createdAt, t.updatedAt)];
      return Success(());
    }

    method Get(id: string) returns (r: Result<Option<Ticket>, StoreError>)
      ensures r == TableGet(Data(), id)
    {
      r := TableGet(Data(), id);
    }

    /** The inserts, in place and in order, up to the first duplicate key. */
    method Insert(id: string, trace: seq<TraceStep>) returns (ok: bool)
      modifies this`steps
      ensures ok <==> InsertAll(old(steps), id, trace).Some?
      ensures ok ==> steps == InsertAll(old(steps), id, trace).value
      ensures !ok ==> exists i :: 0 <= i < |trace| && StoppedAt(old(steps), steps, id, trace, i)
    {
      for i := 0 to |trace|
        invariant InsertAll(old(steps), id, trace[..i]) == Some(steps)
      {
        assert trace[..i + 1][..i] == trace[..i];
        if StepKey(id, trace[i].number) in steps {
          InsertStops(old(steps), id, trace, i + 1);
          assert StoppedAt(old(steps), steps, id, trace, i);
          return false;
        }
        steps := steps[StepKey(id, trace[i].number) := ToRow(trace[i])];
      }
      assert trace[..|trace|] == trace;
      ok := true;
    }

    /** One transaction: the update, the deletion and the inserts all land, or none does. The
        clock is read for the update, before a missing id can be noticed. */
    method Finalise(id: string, resolution: Resolution, trace: seq<TraceStep>) returns (r: Result<(), StoreError>)
      modifies this`tickets, this`steps, clock
      ensures clock.next == old(clock.next) + clock.tick
      ensures match TableFinalise(old(Data()), old(clock.next), id, resolution, trace)
              case Success(db) => r.Success? && Data() == db
              case Failure(x) => r == Failure(x) && Data() == old(Data())
    {
      var savedTickets, savedSteps := tickets, steps;
      var now := clock.Now();
      if id !in tickets {
        return Failure(NotFound(id));
      }
      if !resolution.Checked() {
        return Failure(Integrity);
      }
      tickets := tickets[id := tickets[id].(resolution := resolution, updatedAt := now)];
      steps := Without(steps, id);
      var ok := Insert(id, trace);
      if !ok {
        tickets, steps := savedTickets, savedSteps;
        return Failure(Integrity);
      }
      return Success(());
    }
  }

  lemma {:induction false} InsertStops(steps: StepTable, id: string, trace: seq<TraceStep>, i: nat)
    requires i <= |trace| && InsertAll(steps, id, trace[..i]).None?
    ensures InsertAll(steps, id, trace).None?
    decreases |trace| - i
  {
    if i < |trace| {
      assert trace[..i + 1][..i] == trace[..i];
      InsertStops(steps, id, trace, i + 1);
    } else {
      assert trace[..i] == trace;
    }
  }
}

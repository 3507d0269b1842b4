/** The trace: step types with their coherence rules, the clock, the recorder, and the
    summary a tool result is recorded under. */
module Trace {
  import opened Wrappers
  import opened Domain

  datatype Decision = CallTool | DoReply | GiveUp

  datatype ToolError = ToolError(kind: string, message: string)

  /** What one step records, beside its number and time. */
  datatype Event =
    | IntentClassified(intent: Intent, keywords: seq<string>)
    | LLMDecision(iteration: int, decision: Decision, tool: Option<string>)
    | ToolCalled(name: string, args: Fields)
    | ToolReturned(name: string, ok: bool, summary: Option<Fields>, error: Option<ToolError>)
    | GroundingChecked(passed: bool, literalsChecked: int, violations: seq<Violation>)
    | FinalDecision(outcome: TicketStatus, reason: Option<HandoffReason>, detail: Option<string>)
  {
    /** The validators a step must satisfy to be constructed. */
    predicate Coherent() {
      match this
      case LLMDecision(iteration, decision, tool) => iteration >= 1 && (decision.CallTool? <==> tool.Some?)
      case GroundingChecked(_, n, _) => n >= 0
      case FinalDecision(outcome, reason, _) =>
        !outcome.Processing? && (outcome.HandedOff? ==> reason.Some?) && (outcome.Replied? ==> reason.None?)
      case _ => true
    }
  }

  datatype TraceStep = TraceStep(number: int, ts: int, event: Event)

  function EventsOf(steps: seq<TraceStep>): (r: seq<Event>)
    ensures |r| == |steps| && forall k :: 0 <= k < |steps| ==> r[k] == steps[k].event
  {
    seq(|steps|, i requires 0 <= i < |steps| => steps[i].event)
  }

  /** `number` is 1, 2, 3, ... without gaps. */
  predicate Numbered(steps: seq<TraceStep>) {
    forall k :: 0 <= k < |steps| ==> steps[k].number == k + 1
  }

  /** The number of model decisions in a trace. */
  function Decisions(events: seq<Event>): nat {
    if events == [] then 0 else (if events[0].LLMDecision? then 1 else 0) + Decisions(events[1..])
  }

  lemma {:induction false} DecisionsConcat(a: seq<Event>, b: seq<Event>)
    ensures Decisions(a + b) == Decisions(a) + Decisions(b)
  {
    if a == [] {
      assert a + b == b;
    } else {
      assert (a + b)[1..] == a[1..] + b;
      DecisionsConcat(a[1..], b);
    }
  }

  lemma DecisionsOfOne(e: Event)
    ensures Decisions([e]) == if e.LLMDecision? then 1 else 0
  {
    assert [e][1..] == [];
  }

  function AsToolError(x: Exn): ToolError { ToolError(x.TypeName(), x.message) }

  /** A clock for replayable runs: each reading moves it on by the same amount. */
  class FrozenClock {
    var next: int
    const tick: int

    constructor (start: int, tick: int)
      ensures next == start && this.tick == tick
    {
      next, this.tick := start, tick;
    }

    method Now() returns (now: int)
      modifies this
      ensures now == old(next) && next == old(next) + tick
    {
      now := next;
      next := now + tick;
    }
  }

  /** The steps a recorder adds for a list of events, `done` steps in, from time `start`. */
  function Stamp(events: seq<Event>, done: nat, start: int, tick: int): (r: seq<TraceStep>)
    ensures |r| == |events|
    ensures forall k :: 0 <= k < |events| ==> r[k] == TraceStep(done + k + 1, start + k * tick, events[k])
  {
    seq(|events|, k requires 0 <= k < |events| => TraceStep(done + k + 1, start + k * tick, events[k]))
  }

  /** Numbers and times the steps of one run. */
  class TraceRecorder {
    const clock: FrozenClock
    var count: int
    var steps: seq<TraceStep>

    predicate Valid()
      reads this
    {
      count == |steps| && Numbered(steps)
    }

    constructor (clock: FrozenClock)
      ensures Valid() && steps == [] && this.clock == clock
    {
      this.clock := clock;
      count, steps := 0, [];
    }

    /** Assigns the next number and the time, and appends. The number is taken before the
        step is built: an incoherent event raises, and leaves a gap behind. */
    method Record(event: Event) returns (raised: bool)
      modifies this, clock
      ensures raised <==> !event.Coherent()
      ensures count == old(count) + 1
      ensures clock.next == old(clock.next) + clock.tick
      ensures steps == if raised then old(steps) else old(steps) + [TraceStep(old(count) + 1, old(clock.next), event)]
      ensures old(Valid()) && !raised ==> Valid()
    {
      count := count + 1;
      var ts := clock.Now();
      raised := !event.Coherent();
      if !raised {
        steps := steps + [TraceStep(count, ts, event)];
      }
    }
  }

  lemma StampAppend(events: seq<Event>, more: seq<Event>, done: nat, start: int, tick: int)
    ensures Stamp(events + more, done, start, tick) ==
            Stamp(events, done, start, tick) + Stamp(more, done + |events|, start + |events| * tick, tick)
  {
    forall k | |events| <= k < |events + more|
      ensures start + k * tick == (start + |events| * tick) + (k - |events|) * tick
    {
    }
  }

  // ---------------------------------------------------------------------------------
  // Summaries
  // ---------------------------------------------------------------------------------

  function NonUsers(records: seq<Record>): (r: seq<Record>)
    ensures forall x :: x in r <==> x in records && !x.User?
  {
    if records == [] then []
    else (if records[0].User? then [] else [records[0]]) + NonUsers(records[1..])
  }

  function StatusWord(record: Record): string {
    match record
    case Invoice(_, _, _, status, _) => status.Word()
    case Session(_, _, _, _, status, _) => status.Word()
    case User(_, _, _, _) => ""
  }

  function CountStatus(records: seq<Record>, word: string): nat {
    if records == [] then 0
    else (if StatusWord(records[0]) == word then 1 else 0) + CountStatus(records[1..], word)
  }

  function Distribution(records: seq<Record>, words: seq<string>): Fields {
    map w | w in words && CountStatus(records, w) > 0 :: Num(CountStatus(records, w))
  }

  /** `referenced`: the id field of every record, or an attribute error on the wrong kind. */
  function References(records: seq<Record>, invoices: bool): Result<seq<Json>, Exn> {
    if records == [] then Success([])
    else if invoices && !records[0].Invoice? then Failure(Raised("AttributeError", "invoice_id", "invoice_id"))
    else if !invoices && !records[0].Session? then Failure(Raised("AttributeError", "session_id", "session_id"))
    else
      var rest :- References(records[1..], invoices);
      Success([Str(if invoices then records[0].invoiceId else records[0].sessionId)] + rest)
  }

  function SummariseCollection(result: ToolResult, invoices: bool): Result<Fields, Exn> {
    var records := NonUsers(result.records);
    var words := if invoices then ["paid", "pending", "failed"] else ["completed", "interrupted", "failed"];
    var referenced :- References(records, invoices);
    Success(map["count" := Num(|records|), "statuses" := Obj(Distribution(records, words)),
      "referenced" := Arr(referenced)])
  }

  function Summarise(result: ToolResult): Result<Fields, Exn> {
    if result.tool == "get_user" then
      if result.records == [] then Failure(Raised("IndexError", "list index out of range", ""))
      else if !result.records[0].User? then Failure(ValueError("get_user returned no User"))
      else Success(map["found" := Bool(true), "plan" := Str(result.records[0].plan)])
    else if result.tool == "get_invoices" then SummariseCollection(result, true)
    else if result.tool == "get_charging_sessions" then SummariseCollection(result, false)
    else Failure(ValueError("no summariser for tool " + result.tool))
  }

  lemma {:induction false} CountNext(records: seq<Record>, i: nat, word: string)
    requires i < |records|
    ensures CountStatus(records[..i + 1], word) ==
            CountStatus(records[..i], word) + if StatusWord(records[i]) == word then 1 else 0
  {
    if i > 0 {
      CountNext(records[1..], i - 1, word);
      assert records[..i + 1][1..] == records[1..][..i] && records[..i][1..] == records[1..][..i - 1];
    } else {
      assert records[..1][1..] == [] && records[..0] == [];
    }
  }

  /** The status counts, gathered in one pass over the records. */
  method CountByStatus(records: seq<Record>) returns (counts: map<string, nat>)
    ensures forall w :: w in counts <==> CountStatus(records, w) > 0
    ensures forall w :: w in counts ==> counts[w] == CountStatus(records, w)
  {
    counts := map[];
    for i := 0 to |records|
      invariant forall w :: w in counts <==> CountStatus(records[..i], w) > 0
      invariant forall w :: w in counts ==> counts[w] == CountStatus(records[..i], w)
    {
      forall w: string { CountNext(records, i, w); }
      var word := StatusWord(records[i]);
      counts := counts[word := (if word in counts then counts[word] else 0) + 1];
    }
    assert records[..|records|] == records;
  }

  predicate Referenced(summary: Fields, id: string) {
    "referenced" in summary && summary["referenced"].Arr? && Str(id) in summary["referenced"].items
  }

  lemma {:induction false} ReferencesExact(records: seq<Record>, invoices: bool)
    ensures References(records, invoices).Success? <==>
            forall r :: r in records ==> if invoices then r.Invoice? else r.Session?
    ensures References(records, invoices).Success? ==>
              forall id :: Str(id) in References(records, invoices).value <==>
                exists r :: r in records && id == if invoices then r.invoiceId else r.sessionId
  {
    if records == [] {
    } else {
      ReferencesExact(records[1..], invoices);
      assert forall r :: r in records <==> r == records[0] || r in records[1..];
    }
  }

  /** A collection summary lists the id of every row it summarises, and no other. */
  lemma SummaryReferencesRows(result: ToolResult)
    requires result.tool == "get_invoices" || result.tool == "get_charging_sessions"
    requires Summarise(result).Success?
    ensures forall r :: r in result.records && r.Invoice? ==> Referenced(Summarise(result).value, r.invoiceId)
    ensures forall r :: r in result.records && r.Session? ==> Referenced(Summarise(result).value, r.sessionId)
    ensures forall id :: Referenced(Summarise(result).value, id) ==>
              exists r :: r in result.records && (r.Invoice? || r.Session?) &&
                id == if r.Invoice? then r.invoiceId else r.sessionId
  {
    ReferencesExact(NonUsers(result.records), result.tool == "get_invoices");
  }

  // What a summary says

  /** The positions of the invoices and sessions among `records`, in order. */
  ghost predicate RowsAt(at: seq<nat>, records: seq<Record>) {
    (forall i, j :: 0 <= i < j < |at| ==> at[i] < at[j]) && (forall j :: 0 <= j < |at| ==> at[j] < |records|) &&
    forall k :: 0 <= k < |records| ==> (k in at <==> !records[k].User?)
  }

  ghost predicate Selects(at: seq<nat>, records: seq<Record>, rows: seq<Record>) {
    RowsAt(at, records) && |rows| == |at| && forall j :: 0 <= j < |at| ==> rows[j] == records[at[j]]
  }

  lemma SelectsLast(at: seq<nat>, front: seq<Record>, last: Record, rows: seq<Record>)
    requires Selects(at, front, rows)
    ensures last.User? ==> Selects(at, front + [last], rows)
    ensures !last.User? ==> Selects(at + [|front|], front + [last], rows + [last])
  {
    var all, more := front + [last], if last.User? then at else at + [|front|];
    forall k | 0 <= k < |all| ensures k in more <==> !all[k].User? {
      if k < |front| { assert all[k] == front[k] && (k in more <==> k in at); }
    }
  }

  lemma {:induction false} NonUsersLast(front: seq<Record>, last: Record)
    ensures NonUsers(front + [last]) == NonUsers(front) + if last.User? then [] else [last]
  {
    if front == [] {
      assert front + [last] == [last] && [last][1..] == [];
    } else {
      assert (front + [last])[1..] == front[1..] + [last];
      NonUsersLast(front[1..], last);
    }
  }

  lemma {:induction false} NonUsersSelects(records: seq<Record>) returns (at: seq<nat>)
    ensures Selects(at, records, NonUsers(records))
  {
    if records == [] {
      at := [];
    } else {
      var front, last := records[..|records| - 1], records[|records| - 1];
      assert records == front + [last];
      at := NonUsersSelects(front);
      NonUsersLast(front, last);
      SelectsLast(at, front, last, NonUsers(front));
      at := if last.User? then at else at + [|front|];
    }
  }

  /** The rows that have a status. */
  function Having(rows: seq<Record>, word: string): set<nat> {
    set k | 0 <= k < |rows| && HasStatus(rows[k], word)
  }

  lemma HavingLast(front: seq<Record>, last: Record, word: string)
    ensures |Having(front + [last], word)| == |Having(front, word)| + if HasStatus(last, word) then 1 else 0
  {
    var all := front + [last];
    assert forall k :: 0 <= k < |front| ==> all[k] == front[k];
    assert Having(all, word) == Having(front, word) + if HasStatus(last, word) then {|front|} else {};
  }

  lemma {:induction false} CountIsSize(rows: seq<Record>, word: string)
    requires forall k :: 0 <= k < |rows| ==> !rows[k].User?
    ensures CountStatus(rows, word) == |Having(rows, word)|
  {
    if rows == [] {
      assert Having(rows, word) == {};
    } else {
      var front, last := rows[..|rows| - 1], rows[|rows| - 1];
      CountIsSize(front, word);
      CountNext(rows, |rows| - 1, word);
      assert rows == front + [last] && rows[..|rows| - 1 + 1] == rows;
      HavingLast(front, last, word);
    }
  }

  lemma {:induction false} ReferencesInOrder(records: seq<Record>, invoices: bool)
    requires References(records, invoices).Success?
    ensures |References(records, invoices).value| == |records|
    ensures forall k :: 0 <= k < |records| ==>
              (if invoices then records[k].Invoice? else records[k].Session?) &&
              References(records, invoices).value[k] == Str(IdOf(records[k]))
  {
    if records == [] {
    } else {
      ReferencesInOrder(records[1..], invoices);
    }
  }

  /** The counts of a summary, over the words of one enumeration. */
  function CountUnder(statuses: Fields, word: string): int {
    if word in statuses && statuses[word].Num? then statuses[word].n else 0
  }

  lemma {:induction false} CountsAddUp(rows: seq<Record>, invoices: bool)
    requires forall k :: 0 <= k < |rows| ==> if invoices then rows[k].Invoice? else rows[k].Session?
    ensures invoices ==>
              CountStatus(rows, "paid") + CountStatus(rows, "pending") + CountStatus(rows, "failed") == |rows|
    ensures !invoices ==>
              CountStatus(rows, "completed") + CountStatus(rows, "interrupted") + CountStatus(rows, "failed") == |rows|
  {
    if rows == [] {
    } else {
      CountsAddUp(rows[1..], invoices);
    }
  }

  /** `statuses` counts the rows by status: a word is a key exactly if some row has that status,
      and its value is the number of rows that do. */
  ghost predicate Tallies(statuses: Json, rows: seq<Record>) {
    statuses.Obj? &&
    (forall w :: w in statuses.fields <==> exists k :: 0 <= k < |rows| && HasStatus(rows[k], w)) &&
    (forall w :: w in statuses.fields ==> statuses.fields[w] == Num(|Having(rows, w)|))
  }

  lemma DistributionTallies(rows: seq<Record>, invoices: bool, words: seq<string>)
    requires forall k :: 0 <= k < |rows| ==> if invoices then rows[k].Invoice? else rows[k].Session?
    requires words == if invoices then ["paid", "pending", "failed"] else ["completed", "interrupted", "failed"]
    ensures Tallies(Obj(Distribution(rows, words)), rows)
  {
    forall w ensures CountStatus(rows, w) == |Having(rows, w)| { CountIsSize(rows, w); }
    forall w ensures w in Distribution(rows, words) <==> exists k :: 0 <= k < |rows| && HasStatus(rows[k], w) {
      if k :| 0 <= k < |rows| && HasStatus(rows[k], w) {
        assert k in Having(rows, w);
        assert w in words;
      }
      if |Having(rows, w)| > 0 { var k :| k in Having(rows, w); }
    }
  }

  function IdOf(r: Record): string {
    match r
    case User(_, _, _, _) => ""
    case Session(id, _, _, _, _, _) => id
    case Invoice(id, _, _, _, _) => id
  }

  /** The ids of the rows, in order. */
  predicate ListsIds(referenced: Json, rows: seq<Record>) {
    referenced.Arr? && |referenced.items| == |rows| &&
    forall k | 0 <= k < |rows| :: referenced.items[k] == Str(IdOf(rows[k]))
  }

  /** The counts under the words of the enumeration add up to all the rows. */
  predicate AddsUp(statuses: Json, rows: seq<Record>, invoices: bool) {
    statuses.Obj? &&
    |rows| == CountUnder(statuses.fields, "failed") +
      if invoices then CountUnder(statuses.fields, "paid") + CountUnder(statuses.fields, "pending")
      else CountUnder(statuses.fields, "completed") + CountUnder(statuses.fields, "interrupted")
  }

  lemma WordsAddUp(rows: seq<Record>, invoices: bool, words: seq<string>)
    requires forall k :: 0 <= k < |rows| ==> if invoices then rows[k].Invoice? else rows[k].Session?
    requires words == if invoices then ["paid", "pending", "failed"] else ["completed", "interrupted", "failed"]
    ensures AddsUp(Obj(Distribution(rows, words)), rows, invoices)
  {
    CountsAddUp(rows, invoices);
  }

  lemma SummaryReads(summary: Fields, count: Json, statuses: Json, referenced: Json)
    requires summary == map["count" := count, "statuses" := statuses, "referenced" := referenced]
    ensures summary.Keys == {"count", "statuses", "referenced"}
    ensures summary["count"] == count && summary["statuses"] == statuses && summary["referenced"] == referenced
  {
  }

  /** What the summary of a collection says: how many rows there are, how many of each status,
      and the id of each, in order. Users among the records are left out. */
  lemma CollectionSummarised(result: ToolResult) returns (at: seq<nat>, rows: seq<Record>)
    requires result.tool == "get_invoices" || result.tool == "get_charging_sessions"
    requires Summarise(result).Success?
    ensures Selects(at, result.records, rows)
    ensures var s := Summarise(result).value;
            s.Keys == {"count", "statuses", "referenced"} && s["count"] == Num(|rows|) &&
            ListsIds(s["referenced"], rows) && Tallies(s["statuses"], rows) &&
            AddsUp(s["statuses"], rows, result.tool == "get_invoices")
  {
    var invoices := result.tool == "get_invoices";
    var words := if invoices then ["paid", "pending", "failed"] else ["completed", "interrupted", "failed"];
    at := NonUsersSelects(result.records);
    rows := NonUsers(result.records);
    ReferencesInOrder(rows, invoices);
    DistributionTallies(rows, invoices, words);
    WordsAddUp(rows, invoices, words);
    SummaryReads(Summarise(result).value, Num(|rows|), Obj(Distribution(rows, words)),
      Arr(References(rows, invoices).value));
  }

  /** When there is a summary: of a user, if the first record is one; of a collection, if its
      rows are all of its kind. */
  lemma SummarisedExactly(result: ToolResult)
    ensures Summarise(result).Success? <==>
            (result.tool == "get_user" && result.records != [] && result.records[0].User?) ||
            (result.tool == "get_invoices" && forall r :: r in result.records ==> !r.Session?) ||
            (result.tool == "get_charging_sessions" && forall r :: r in result.records ==> !r.Invoice?)
    ensures result.tool == "get_user" && Summarise(result).Success? ==>
              Summarise(result).value.Keys == {"found", "plan"} && Summarise(result).value["found"] == Bool(true) &&
              Summarise(result).value["plan"] == Str(result.records[0].plan)
  {
    ReferencesExact(NonUsers(result.records), result.tool == "get_invoices");
  }
}

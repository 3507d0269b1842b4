/** The facts of a run: what the projection of its tool results keeps for templates and checker. */
module FactSets {
  import opened Wrappers
  import opened Domain

  datatype InvoiceFact = InvoiceFact(invoiceId: string, amount: real, currency: string, status: InvoiceStatus)

  datatype SessionFact = SessionFact(sessionId: string, station: string, kwh: real, cost: real, status: SessionStatus)

  datatype FactSet = FactSet(userName: Option<string>, userId: Option<string>,
                             invoices: seq<InvoiceFact>, sessions: seq<SessionFact>)
  {
    /** Amounts, kWh and costs, and the row counts. */
    function AllowedNumbers(): set<real> {
      (set f | f in invoices :: f.amount) +
      (set f | f in sessions :: f.kwh) + (set f | f in sessions :: f.cost) +
      (if invoices == [] then {} else {|invoices| as real}) +
      (if sessions == [] then {} else {|sessions| as real})
    }

    function AllowedIdentifiers(): set<string> {
      (set f | f in invoices :: f.invoiceId) + (set f | f in sessions :: f.sessionId) +
      (if userId.Some? && userId.value != "" then {userId.value} else {})
    }

    function AllowedEntities(): set<string> {
      (set f | f in sessions :: f.station) +
      (if userName.Some? && userName.value != "" then {userName.value} else {})
    }

    function AllowedStatuses(): set<string> {
      (set f | f in invoices :: f.status.Word()) + (set f | f in sessions :: f.status.Word())
    }
  }

  function InvoiceFactOf(r: Record): InvoiceFact
    requires r.Invoice?
  {
    InvoiceFact(r.invoiceId, r.amount, r.currency, r.invoiceStatus)
  }

  function SessionFactOf(r: Record): SessionFact
    requires r.Session?
  {
    SessionFact(r.sessionId, r.station, r.kwh, r.cost, r.sessionStatus)
  }

  const NO_FACTS := FactSet(None, None, [], [])

  /** One more record: the last user wins, rows accumulate in order. */
  function Project(facts: FactSet, record: Record): FactSet {
    match record
    case User(id, name, _, _) => facts.(userName := Some(name), userId := Some(id))
    case Invoice(id, amount, currency, status, _) =>
      facts.(invoices := facts.invoices + [InvoiceFact(id, amount, currency, status)])
    case Session(id, station, kwh, cost, status, _) =>
      facts.(sessions := facts.sessions + [SessionFact(id, station, kwh, cost, status)])
  }

  function ProjectAll(facts: FactSet, records: seq<Record>): FactSet {
    if records == [] then facts else Project(ProjectAll(facts, records[..|records| - 1]), records[|records| - 1])
  }

  function FromObservations(history: seq<Observation>): FactSet {
    if history == [] then NO_FACTS
    else ProjectAll(FromObservations(history[..|history| - 1]), history[|history| - 1].result.records)
  }

  /** The projection loop. */
  method Collect(history: seq<Observation>) returns (facts: FactSet)
    ensures facts == FromObservations(history)
  {
    facts := NO_FACTS;
    for i := 0 to |history|
      invariant facts == FromObservations(history[..i])
    {
      ghost var before := facts;
      var records := history[i].result.records;
      for j := 0 to |records|
        invariant facts == ProjectAll(before, records[..j])
      {
        assert records[..j + 1][..j] == records[..j];
        facts := Project(facts, records[j]);
      }
      assert records[..|records|] == records;
      assert history[..i + 1][..i] == history[..i];
    }
    assert history[..|history|] == history;
  }

  /** The numeric facts, gathered row by row. */
  method CollectNumbers(facts: FactSet) returns (numbers: set<real>)
    ensures numbers == facts.AllowedNumbers()
  {
    numbers := {};
    for i := 0 to |facts.invoices|
      invariant numbers == set k | 0 <= k < i :: facts.invoices[k].amount
    {
      numbers := numbers + {facts.invoices[i].amount};
    }
    var amounts := numbers;
    assert amounts == set f | f in facts.invoices :: f.amount;
    for i := 0 to |facts.sessions|
      invariant numbers == amounts + (set k | 0 <= k < i :: facts.sessions[k].kwh) +
                           (set k | 0 <= k < i :: facts.sessions[k].cost)
    {
      numbers := numbers + {facts.sessions[i].kwh, facts.sessions[i].cost};
    }
    assert (set k | 0 <= k < |facts.sessions| :: facts.sessions[k].kwh) == set f | f in facts.sessions :: f.kwh;
    assert (set k | 0 <= k < |facts.sessions| :: facts.sessions[k].cost) == set f | f in facts.sessions :: f.cost;
    if facts.invoices != [] {
      numbers := numbers + {|facts.invoices| as real};
    }
    if facts.sessions != [] {
      numbers := numbers + {|facts.sessions| as real};
    }
  }

  // ---------------------------------------------------------------------------------
  // Where facts come from
  // ---------------------------------------------------------------------------------

  predicate Observed(history: seq<Observation>, record: Record) {
    exists i | 0 <= i < |history| :: record in history[i].result.records
  }

  /** Every fact is a field of some record already folded in. */
  ghost predicate Sourced(facts: FactSet, seen: Record -> bool) {
    (forall f | f in facts.invoices ::
      exists r :: seen(r) && r.Invoice? && f == InvoiceFact(r.invoiceId, r.amount, r.currency, r.invoiceStatus)) &&
    (forall f | f in facts.sessions ::
      exists r :: seen(r) && r.Session? && f == SessionFact(r.sessionId, r.station, r.kwh, r.cost, r.sessionStatus)) &&
    (facts.userName.Some? <==> facts.userId.Some?) &&
    (facts.userId.Some? ==>
      exists r :: seen(r) && r.User? && facts.userId == Some(r.userId) && facts.userName == Some(r.name))
  }

  lemma {:induction false} ProjectAllSourced(facts: FactSet, records: seq<Record>, seen: Record -> bool)
    requires Sourced(facts, seen) && forall r :: r in records ==> seen(r)
    ensures Sourced(ProjectAll(facts, records), seen)
  {
    if records == [] {
    } else {
      ProjectAllSourced(facts, records[..|records| - 1], seen);
      var r := records[|records| - 1];
      assert seen(r);
    }
  }

  lemma {:induction false} FromObservationsSourced(history: seq<Observation>, seen: Record -> bool)
    requires forall r :: Observed(history, r) ==> seen(r)
    ensures Sourced(FromObservations(history), seen)
  {
    if history == [] {
    } else {
      var front := history[..|history| - 1];
      forall r | Observed(front, r) ensures seen(r) {
        var i :| 0 <= i < |front| && r in front[i].result.records;
        assert history[i] == front[i];
        assert Observed(history, r);
      }
      FromObservationsSourced(front, seen);
      forall r | r in history[|history| - 1].result.records ensures seen(r) {
        assert Observed(history, r);
      }
      ProjectAllSourced(FromObservations(front), history[|history| - 1].result.records, seen);
    }
  }

  /** Every fact of a run is a field of a record some tool returned in that run. */
  lemma FactsAreObserved(history: seq<Observation>)
    ensures Sourced(FromObservations(history), (r: Record) => Observed(history, r))
  {
    FromObservationsSourced(history, (r: Record) => Observed(history, r));
  }

  /** Projecting records adds their rows, once per occurrence and in order. */
  lemma {:induction false} ProjectAllKeepsRows(facts: FactSet, records: seq<Record>)
    ensures ProjectAll(facts, records).invoices == facts.invoices + InvoiceRows(records)
    ensures ProjectAll(facts, records).sessions == facts.sessions + SessionRows(records)
  {
    if records == [] {
    } else {
      ProjectAllKeepsRows(facts, records[..|records| - 1]);
    }
  }

  function InvoiceRows(records: seq<Record>): seq<InvoiceFact> {
    if records == [] then [] else
      var r := records[|records| - 1];
      InvoiceRows(records[..|records| - 1]) +
      if r.Invoice? then [InvoiceFact(r.invoiceId, r.amount, r.currency, r.invoiceStatus)] else []
  }

  function SessionRows(records: seq<Record>): seq<SessionFact> {
    if records == [] then [] else
      var r := records[|records| - 1];
      SessionRows(records[..|records| - 1]) +
      if r.Session? then [SessionFact(r.sessionId, r.station, r.kwh, r.cost, r.sessionStatus)] else []
  }

  /** The records of a history, observation by observation. */
  function AllRecords(history: seq<Observation>): seq<Record> {
    if history == [] then []
    else AllRecords(history[..|history| - 1]) + history[|history| - 1].result.records
  }

  lemma {:induction false} RowsConcat(a: seq<Record>, b: seq<Record>)
    ensures InvoiceRows(a + b) == InvoiceRows(a) + InvoiceRows(b)
    ensures SessionRows(a + b) == SessionRows(a) + SessionRows(b)
    decreases |b|
  {
    if b == [] {
      assert a + b == a;
    } else {
      var front := b[..|b| - 1];
      assert (a + b)[..|a + b| - 1] == a + front;
      RowsConcat(a, front);
    }
  }

  /** The projection loses no row of a history: each invoice and session stands in the facts
      once per occurrence, in the order observed, and no other does. */
  lemma {:induction false} FactsKeepRows(history: seq<Observation>)
    ensures FromObservations(history).invoices == InvoiceRows(AllRecords(history))
    ensures FromObservations(history).sessions == SessionRows(AllRecords(history))
  {
    if history == [] {
    } else {
      var front, last := history[..|history| - 1], history[|history| - 1].result.records;
      FactsKeepRows(front);
      ProjectAllKeepsRows(FromObservations(front), last);
      RowsConcat(AllRecords(front), last);
    }
  }

  // What is allowed, in terms of the records

  /** `k` is the last user among the records. */
  ghost predicate LastUser(records: seq<Record>, k: nat) {
    k < |records| && records[k].User? && forall j :: k < j < |records| ==> !records[j].User?
  }

  lemma {:induction false} ProjectAllConcat(facts: FactSet, a: seq<Record>, b: seq<Record>)
    ensures ProjectAll(facts, a + b) == ProjectAll(ProjectAll(facts, a), b)
    decreases |b|
  {
    if b == [] {
      assert a + b == a;
    } else {
      assert (a + b)[..|a + b| - 1] == a + b[..|b| - 1];
      ProjectAllConcat(facts, a, b[..|b| - 1]);
    }
  }

  /** Observing one after the other is projecting all records at once. */
  lemma {:induction false} ObservedAtOnce(history: seq<Observation>)
    ensures FromObservations(history) == ProjectAll(NO_FACTS, AllRecords(history))
  {
    if history == [] {
    } else {
      var front, last := history[..|history| - 1], history[|history| - 1].result.records;
      ObservedAtOnce(front);
      ProjectAllConcat(NO_FACTS, AllRecords(front), last);
    }
  }

  lemma {:induction false} LastUserKept(records: seq<Record>, k: nat)
    requires LastUser(records, k)
    ensures ProjectAll(NO_FACTS, records).userName == Some(records[k].name)
    ensures ProjectAll(NO_FACTS, records).userId == Some(records[k].userId)
  {
    var n := |records| - 1;
    if k < n {
      assert !records[n].User?;
      assert forall j :: k < j < n ==> records[..n][j] == records[j];
      LastUserKept(records[..n], k);
    }
  }

  lemma {:induction false} NoUserKept(records: seq<Record>)
    requires forall k :: 0 <= k < |records| ==> !records[k].User?
    ensures ProjectAll(NO_FACTS, records).userName == None && ProjectAll(NO_FACTS, records).userId == None
  {
    if records == [] {
    } else {
      NoUserKept(records[..|records| - 1]);
    }
  }

  /** The customer of a history is the last user observed, if any was. */
  lemma FactsKeepLastUser(history: seq<Observation>)
    ensures var records, facts := AllRecords(history), FromObservations(history);
            (forall k: nat :: LastUser(records, k) ==>
              facts.userName == Some(records[k].name) && facts.userId == Some(records[k].userId)) &&
            ((forall r :: r in records ==> !r.User?) ==> facts.userName == None && facts.userId == None)
  {
    var records := AllRecords(history);
    ObservedAtOnce(history);
    forall k: nat | LastUser(records, k)
      ensures FromObservations(history).userName == Some(records[k].name)
      ensures FromObservations(history).userId == Some(records[k].userId)
    {
      LastUserKept(records, k);
    }
    if forall r :: r in records ==> !r.User? { NoUserKept(records); }
  }

  lemma {:induction false} InvoiceRowFrom(records: seq<Record>, f: InvoiceFact) returns (r: Record)
    requires f in InvoiceRows(records)
    ensures r in records && r.Invoice? && f == InvoiceFactOf(r)
  {
    r := records[|records| - 1];
    if !(r.Invoice? && f == InvoiceFactOf(r)) { r := InvoiceRowFrom(records[..|records| - 1], f); }
  }

  lemma {:induction false} SessionRowFrom(records: seq<Record>, f: SessionFact) returns (r: Record)
    requires f in SessionRows(records)
    ensures r in records && r.Session? && f == SessionFactOf(r)
  {
    r := records[|records| - 1];
    if !(r.Session? && f == SessionFactOf(r)) { r := SessionRowFrom(records[..|records| - 1], f); }
  }

  lemma {:induction false} RecordKept(records: seq<Record>, r: Record)
    requires r in records
    ensures r.Invoice? ==> InvoiceFactOf(r) in InvoiceRows(records)
    ensures r.Session? ==> SessionFactOf(r) in SessionRows(records)
  {
    if r != records[|records| - 1] {
      assert r in records[..|records| - 1];
      RecordKept(records[..|records| - 1], r);
    }
  }

  function InvoicesAt(records: seq<Record>): set<nat> { set k | 0 <= k < |records| && records[k].Invoice? }

  function SessionsAt(records: seq<Record>): set<nat> { set k | 0 <= k < |records| && records[k].Session? }

  lemma InvoicesNext(front: seq<Record>, last: Record)
    ensures |InvoicesAt(front + [last])| == |InvoicesAt(front)| + if last.Invoice? then 1 else 0
  {
    var all, before := front + [last], InvoicesAt(front);
    assert forall k :: 0 <= k < |front| ==> all[k] == front[k];
    if last.Invoice? {
      assert InvoicesAt(all) == before + {|front|};
    } else {
      assert InvoicesAt(all) == before;
    }
  }

  lemma SessionsNext(front: seq<Record>, last: Record)
    ensures |SessionsAt(front + [last])| == |SessionsAt(front)| + if last.Session? then 1 else 0
  {
    var all, before := front + [last], SessionsAt(front);
    assert forall k :: 0 <= k < |front| ==> all[k] == front[k];
    if last.Session? {
      assert SessionsAt(all) == before + {|front|};
    } else {
      assert SessionsAt(all) == before;
    }
  }

  lemma {:induction false} RowsCounted(records: seq<Record>)
    ensures |InvoiceRows(records)| == |InvoicesAt(records)| && |SessionRows(records)| == |SessionsAt(records)|
  {
    if records == [] {
      assert InvoicesAt(records) == {} && SessionsAt(records) == {};
    } else {
      var front, last := records[..|records| - 1], records[|records| - 1];
      assert records == front + [last];
      RowsCounted(front);
      InvoicesNext(front, last);
      SessionsNext(front, last);
    }
  }

  predicate HasNumber(r: Record, n: real) {
    (r.Invoice? && r.amount == n) || (r.Session? && (r.kwh == n || r.cost == n))
  }

  lemma NumberFrom(facts: FactSet, records: seq<Record>, n: real)
    requires facts.invoices == InvoiceRows(records) && facts.sessions == SessionRows(records)
    requires (exists f :: f in facts.invoices && f.amount == n) ||
             (exists f :: f in facts.sessions && (f.kwh == n || f.cost == n))
    ensures exists r :: r in records && HasNumber(r, n)
  {
    if f :| f in facts.invoices && f.amount == n {
      var r := InvoiceRowFrom(records, f);
      assert HasNumber(r, n);
    } else {
      var f :| f in facts.sessions && (f.kwh == n || f.cost == n);
      var r := SessionRowFrom(records, f);
      assert HasNumber(r, n);
    }
  }

  /** A number is allowed exactly if it is the amount, the kWh or the cost of an observed record,
      or counts the invoices or the sessions observed, if there are any. */
  lemma AllowedNumbersExact(history: seq<Observation>, n: real)
    ensures var records := AllRecords(history);
            n in FromObservations(history).AllowedNumbers() <==>
            (exists r :: r in records && HasNumber(r, n)) ||
            (InvoicesAt(records) != {} && |InvoicesAt(records)| as real == n) ||
            (SessionsAt(records) != {} && |SessionsAt(records)| as real == n)
  {
    var records, facts := AllRecords(history), FromObservations(history);
    FactsKeepRows(history);
    RowsCounted(records);
    if r :| r in records && HasNumber(r, n) {
      RecordKept(records, r);
      assert n in facts.AllowedNumbers();
    } else if exists f :: f in facts.invoices && f.amount == n {
      NumberFrom(facts, records, n);
    } else if exists f :: f in facts.sessions && (f.kwh == n || f.cost == n) {
      NumberFrom(facts, records, n);
    }
  }

  /** A word is an allowed status exactly if it is the status of an observed record. */
  lemma AllowedStatusesExact(history: seq<Observation>, word: string)
    ensures word in FromObservations(history).AllowedStatuses() <==>
            exists r :: r in AllRecords(history) && HasStatus(r, word)
  {
    var records, facts := AllRecords(history), FromObservations(history);
    FactsKeepRows(history);
    if r :| r in records && HasStatus(r, word) {
      RecordKept(records, r);
      assert word in facts.AllowedStatuses();
    } else if f :| f in facts.invoices && f.status.Word() == word {
      var r := InvoiceRowFrom(records, f);
      assert HasStatus(r, word);
    } else if f :| f in facts.sessions && f.status.Word() == word {
      var r := SessionRowFrom(records, f);
      assert HasStatus(r, word);
    }
  }

  predicate HasId(r: Record, id: string) { (r.Invoice? && r.invoiceId == id) || (r.Session? && r.sessionId == id) }

  /** An identifier is allowed exactly if it is the id of an observed invoice or session, or the
      customer's, if that is not empty. */
  lemma AllowedIdentifiersExact(history: seq<Observation>, id: string)
    ensures id in FromObservations(history).AllowedIdentifiers() <==>
            (exists r :: r in AllRecords(history) && HasId(r, id)) ||
            (id != "" && FromObservations(history).userId == Some(id))
  {
    var records, facts := AllRecords(history), FromObservations(history);
    FactsKeepRows(history);
    if r :| r in records && HasId(r, id) {
      RecordKept(records, r);
      assert id in facts.AllowedIdentifiers();
    } else if f :| f in facts.invoices && f.invoiceId == id {
      var r := InvoiceRowFrom(records, f);
      assert HasId(r, id);
    } else if f :| f in facts.sessions && f.sessionId == id {
      var r := SessionRowFrom(records, f);
      assert HasId(r, id);
    }
  }

  /** A name is masked exactly if it is an observed station, or the customer's, if that is not
      empty. */
  lemma AllowedEntitiesExact(history: seq<Observation>, name: string)
    ensures name in FromObservations(history).AllowedEntities() <==>
            (exists r :: r in AllRecords(history) && r.Session? && r.station == name) ||
            (name != "" && FromObservations(history).userName == Some(name))
  {
    var records, facts := AllRecords(history), FromObservations(history);
    FactsKeepRows(history);
    if r :| r in records && r.Session? && r.station == name {
      RecordKept(records, r);
      assert name in facts.AllowedEntities();
    } else if f :| f in facts.sessions && f.station == name {
      var r := SessionRowFrom(records, f);
    }
  }
}

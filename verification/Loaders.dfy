/** The three tools over parsed fixture tables, and the registry that dispatches to them. */
module Loaders {
  import opened Wrappers
  import opened Domain
  import opened Sorting

  type AUser = r: Record | r.User? witness User("", "", "", "")
  type ASession = r: Record | r.Session? witness Session("", "", 0.0, 0.0, Completed, 0)
  type AnInvoice = r: Record | r.Invoice? witness Invoice("", 0.0, "", Paid, 0)

  /** A parsed row: the user it is filed under, and its record if it validates. */
  datatype Row<+T> = Row(userId: Option<string>, rowId: string, parsed: Option<T>)

  /** A fixture file: its rows, or why it cannot be read. */
  type Table<+T> = Result<seq<Row<T>>, string>

  datatype Database = Database(users: Table<AUser>, sessions: Table<ASession>, invoices: Table<AnInvoice>)

  /** The rows filed under a user, in table order. */
  function RowsFor<T>(rows: seq<Row<T>>, userId: string): (r: seq<Row<T>>)
    ensures forall row :: row in r ==> row in rows && row.userId == Some(userId)
    ensures forall row :: row in rows && row.userId == Some(userId) ==> row in r
  {
    if rows == [] then []
    else (if rows[0].userId == Some(userId) then [rows[0]] else []) + RowsFor(rows[1..], userId)
  }

  function Read<T>(table: Table<T>): Result<seq<Row<T>>, Exn> {
    match table
    case Failure(message) => Failure(ToolExecutionError(message))
    case Success(rows) => Success(rows)
  }

  function Validate<T>(row: Row<T>, noun: string, userId: string): Result<T, Exn> {
    match row.parsed
    case None => Failure(ToolExecutionError(noun + " " + row.rowId + " for " + userId + " failed validation"))
    case Some(record) => Success(record)
  }

  /** Validates in row order; the first malformed row fails the call. */
  function ValidateAll<T>(rows: seq<Row<T>>, noun: string, userId: string): Result<seq<T>, Exn> {
    if rows == [] then Success([])
    else
      var first :- Validate(rows[0], noun, userId);
      var rest :- ValidateAll(rows[1..], noun, userId);
      Success([first] + rest)
  }

  function GetUser(db: Database, userId: string): Result<AUser, Exn> {
    var all :- Read(db.users);
    var rows := RowsFor(all, userId);
    if rows == [] then Failure(UserNotFound("no user " + userId))
    else
      var user :- Validate(rows[0], "user", userId);
      Success(user.(userId := userId))
  }

  /** The key behind `sorted(..., reverse=True)`, which keeps equal elements in order. */
  function Reversed<T>(key: T -> int): T -> int { x => -key(x) }

  /** Sessions and invoices are fetched alike: user first, then rows, validation and order. */
  function Collection<T>(db: Database, table: Table<T>, userId: string, noun: string,
                         newest: T -> int): Result<seq<T>, Exn> {
    var _ :- GetUser(db, userId);
    var all :- Read(table);
    var rows := RowsFor(all, userId);
    if rows == [] then Failure(NoDataAvailable("user " + userId + " has no " + noun + "s"))
    else
      var records :- ValidateAll(rows, noun, userId);
      Success(SortBy(records, Reversed(newest)))
  }

  function StartedAt(s: ASession): int { s.startedAt }

  function IssuedAt(i: AnInvoice): int { i.issuedAt }

  function GetSessions(db: Database, userId: string): Result<seq<ASession>, Exn> {
    Collection(db, db.sessions, userId, "charging session", StartedAt)
  }

  function GetInvoices(db: Database, userId: string): Result<seq<AnInvoice>, Exn> {
    Collection(db, db.invoices, userId, "invoice", IssuedAt)
  }

  /** The registry: a known name, one non-empty `user_id` argument and nothing else. */
  function RunRegistered(db: Database, name: string, args: Fields): Result<ToolResult, Exn> {
    if name != "get_user" && name != "get_charging_sessions" && name != "get_invoices" then
      Failure(ToolExecutionError("no tool named " + name))
    else if args.Keys != {"user_id"} || !args["user_id"].Str? || args["user_id"].s == "" then
      Failure(ToolExecutionError(name + " called with invalid arguments"))
    else
      var userId := args["user_id"].s;
      if name == "get_user" then
        var user :- GetUser(db, userId);
        Success(ToolResult(name, [user]))
      else if name == "get_charging_sessions" then
        var sessions :- GetSessions(db, userId);
        Success(ToolResult(name, sessions))
      else
        var invoices :- GetInvoices(db, userId);
        Success(ToolResult(name, invoices))
  }

  // ---------------------------------------------------------------------------------
  // Isolation, precedence and order
  // ---------------------------------------------------------------------------------

  /** The records of rows that all validate. */
  function Parsed<T>(rows: seq<Row<T>>): (r: seq<T>)
    requires forall row :: row in rows ==> row.parsed.Some?
    ensures |r| == |rows| && forall k :: 0 <= k < |rows| ==> r[k] == rows[k].parsed.value
  {
    if rows == [] then [] else
      assert rows[0] in rows;
      [rows[0].parsed.value] + Parsed(rows[1..])
  }

  lemma {:induction false} ValidateAllExact<T>(rows: seq<Row<T>>, noun: string, userId: string)
    ensures ValidateAll(rows, noun, userId).Success? <==> forall row :: row in rows ==> row.parsed.Some?
    ensures ValidateAll(rows, noun, userId).Success? ==> ValidateAll(rows, noun, userId).value == Parsed(rows)
    ensures ValidateAll(rows, noun, userId).Failure? ==>
              ValidateAll(rows, noun, userId).error.Raised? &&
                ValidateAll(rows, noun, userId).error.kind == "ToolExecutionError"
  {
    if rows == [] {
    } else {
      ValidateAllExact(rows[1..], noun, userId);
      assert forall row :: row in rows <==> row == rows[0] || row in rows[1..];
    }
  }

  /** `k` is the first row filed under the user. */
  ghost predicate FirstFiled<T>(rows: seq<Row<T>>, userId: string, k: nat) {
    k < |rows| && rows[k].userId == Some(userId) && forall j :: 0 <= j < k ==> rows[j].userId != Some(userId)
  }

  predicate Unfiled<T>(rows: seq<Row<T>>, userId: string) {
    forall k | 0 <= k < |rows| :: rows[k].userId != Some(userId)
  }

  lemma {:induction false} FirstOfRows<T>(rows: seq<Row<T>>, userId: string) returns (k: nat)
    requires !Unfiled(rows, userId)
    ensures FirstFiled(rows, userId, k) && RowsFor(rows, userId) != [] && RowsFor(rows, userId)[0] == rows[k]
  {
    if rows[0].userId == Some(userId) {
      k := 0;
    } else {
      var rest := FirstOfRows(rows[1..], userId);
      k := rest + 1;
      assert forall j :: 0 < j < k ==> rows[j] == rows[1..][j - 1];
    }
  }

  /** The first row filed under the id validates, and `user` has its name, language and plan. */
  ghost predicate IsUserAt(rows: seq<Row<AUser>>, userId: string, k: nat, user: Record) {
    FirstFiled(rows, userId, k) && rows[k].parsed.Some? &&
    var u := rows[k].parsed.value; user == User(userId, u.name, u.language, u.plan)
  }

  ghost predicate IsMalformedAt(rows: seq<Row<AUser>>, userId: string, k: nat) {
    FirstFiled(rows, userId, k) && rows[k].parsed.None?
  }

  /** The user on file under an id. */
  ghost predicate OnFile(db: Database, userId: string, user: Record) {
    db.users.Success? && exists k: nat :: IsUserAt(db.users.value, userId, k, user)
  }

  /** Why there is none, in order: the table cannot be read, no row is filed under the id, or
      the first one is malformed. */
  ghost predicate NotOnFile(db: Database, userId: string, x: Exn) {
    match db.users
    case Failure(message) => x == ToolExecutionError(message)
    case Success(rows) =>
      if Unfiled(rows, userId) then x.UserNotFound?
      else x.Raised? && x.kind == "ToolExecutionError" && exists k: nat :: IsMalformedAt(rows, userId, k)
  }

  lemma FirstFiledUnique(rows: seq<Row<AUser>>, userId: string, j: nat, k: nat)
    requires FirstFiled(rows, userId, j) && FirstFiled(rows, userId, k)
    ensures j == k
  {
  }

  lemma UnfiledHasNoRows<T>(rows: seq<Row<T>>, userId: string)
    ensures Unfiled(rows, userId) <==> RowsFor(rows, userId) == []
  {
    if !Unfiled(rows, userId) {
      var k := FirstOfRows(rows, userId);
    } else if RowsFor(rows, userId) != [] {
      assert RowsFor(rows, userId)[0] in RowsFor(rows, userId);
    }
  }

  /** Looking up a user, in terms of the table: it succeeds exactly with the user on file, and
      fails with the first reason that there is none. */
  lemma GetUserExact(db: Database, userId: string)
    ensures match GetUser(db, userId)
            case Success(user) => OnFile(db, userId, user)
            case Failure(x) => NotOnFile(db, userId, x)
  {
    if db.users.Success? {
      var rows := db.users.value;
      UnfiledHasNoRows(rows, userId);
      if !Unfiled(rows, userId) {
        var k := FirstOfRows(rows, userId);
        if rows[k].parsed.Some? {
          assert IsUserAt(rows, userId, k, GetUser(db, userId).value);
        } else {
          assert IsMalformedAt(rows, userId, k);
        }
      }
    }
  }

  /** So whoever is on file is who is found. */
  lemma OnFileIsFound(db: Database, userId: string, user: Record)
    requires OnFile(db, userId, user)
    ensures GetUser(db, userId) == Success(user)
  {
    var rows := db.users.value;
    var k: nat :| IsUserAt(rows, userId, k, user);
    UnfiledHasNoRows(rows, userId);
    var j := FirstOfRows(rows, userId);
    FirstFiledUnique(rows, userId, j, k);
  }

  ghost predicate Known(db: Database, userId: string) { exists user :: OnFile(db, userId, user) }

  lemma KnownIsFound(db: Database, userId: string)
    ensures Known(db, userId) <==> GetUser(db, userId).Success?
  {
    GetUserExact(db, userId);
    if GetUser(db, userId).Success? { assert OnFile(db, userId, GetUser(db, userId).value); }
    if user :| OnFile(db, userId, user) { OnFileIsFound(db, userId, user); }
  }

  /** All of `records`, newest first, those of one instant in their original order. */
  ghost predicate NewestFirst<T>(sorted: seq<T>, records: seq<T>, newest: T -> int) {
    multiset(sorted) == multiset(records) &&
    (forall i, j :: 0 <= i < j < |sorted| ==> newest(sorted[i]) >= newest(sorted[j])) &&
    (forall k :: WithKey(sorted, Reversed(newest), k) == WithKey(records, Reversed(newest), k))
  }

  lemma SortsNewestFirst<T>(records: seq<T>, newest: T -> int)
    ensures NewestFirst(SortBy(records, Reversed(newest)), records, newest)
  {
    var key := Reversed(newest);
    var sorted := SortBy(records, key);
    SortByCorrect(records, key, 0);
    forall k ensures WithKey(sorted, key, k) == WithKey(records, key, k) {
      SortByCorrect(records, key, k);
    }
    forall i, j | 0 <= i < j < |sorted| ensures newest(sorted[i]) >= newest(sorted[j]) {
      assert key(sorted[i]) <= key(sorted[j]);
    }
  }

  /** Why a collection call fails, in order of precedence: the user is not on file; the data
      table cannot be read; there is no row of this user; one of this user's rows is malformed. */
  ghost predicate Refused<T>(db: Database, table: Table<T>, userId: string, x: Exn) {
    if !Known(db, userId) then NotOnFile(db, userId, x)
    else
      match table
      case Failure(message) => x == ToolExecutionError(message)
      case Success(all) =>
        if RowsFor(all, userId) == [] then x.NoDataAvailable?
        else
          (exists row :: row in RowsFor(all, userId) && row.parsed.None?) &&
          x.Raised? && x.kind == "ToolExecutionError"
  }

  /** What it returns otherwise: every record of a user on file, at least one, newest first. */
  ghost predicate Answers<T>(db: Database, table: Table<T>, userId: string, newest: T -> int, records: seq<T>) {
    Known(db, userId) && table.Success? &&
    var rows := RowsFor(table.value, userId);
    rows != [] && (forall row :: row in rows ==> row.parsed.Some?) && NewestFirst(records, Parsed(rows), newest)
  }

  /** A collection call fails exactly for one of these reasons, and otherwise returns exactly
      these records. */
  lemma CollectionExact<T>(db: Database, table: Table<T>, userId: string, noun: string, newest: T -> int)
    ensures match Collection(db, table, userId, noun, newest)
            case Success(records) => records != [] && Answers(db, table, userId, newest, records)
            case Failure(x) => Refused(db, table, userId, x)
  {
    KnownIsFound(db, userId);
    GetUserExact(db, userId);
    if GetUser(db, userId).Success? && table.Success? {
      var rows := RowsFor(table.value, userId);
      ValidateAllExact(rows, noun, userId);
      if rows != [] && forall row :: row in rows ==> row.parsed.Some? {
        SortsNewestFirst(Parsed(rows), newest);
        SameElements(Parsed(rows), Reversed(newest));
      }
    }
  }

  lemma NewestFirstUnique<T>(a: seq<T>, b: seq<T>, records: seq<T>, newest: T -> int)
    requires NewestFirst(a, records, newest) && NewestFirst(b, records, newest)
    ensures a == b
  {
    var key := Reversed(newest);
    assert Ascending(a, key) && Ascending(b, key) by {
      assert forall x :: key(x) == -newest(x);
    }
    forall k ensures WithKey(a, key, k) == WithKey(b, key, k) {
      assert WithKey(a, key, k) == WithKey(records, key, k);
    }
    StableSortUnique(a, b, key);
  }

  /** There are no other records that would do, and none are withheld. */
  lemma AnswerUnique<T>(db: Database, table: Table<T>, userId: string, noun: string, newest: T -> int, records: seq<T>)
    requires Answers(db, table, userId, newest, records)
    ensures Collection(db, table, userId, noun, newest) == Success(records)
  {
    CollectionExact(db, table, userId, noun, newest);
    var r := Collection(db, table, userId, noun, newest);
    if r.Success? { NewestFirstUnique(r.value, records, Parsed(RowsFor(table.value, userId)), newest); }
  }

  predicate Registered(name: string) {
    name == "get_user" || name == "get_charging_sessions" || name == "get_invoices"
  }

  /** An unknown tool, or anything but one non-empty `user_id`, is an execution error. */
  lemma RegistryRefuses(db: Database, name: string, args: Fields)
    requires !Registered(name) || forall userId :: args == map["user_id" := Str(userId)] ==> userId == ""
    ensures RunRegistered(db, name, args).Failure?
    ensures RunRegistered(db, name, args).error.Raised?
    ensures RunRegistered(db, name, args).error.kind == "ToolExecutionError"
  {
    if args.Keys == {"user_id"} && args["user_id"].Str? {
      assert args == map["user_id" := Str(args["user_id"].s)];
    }
  }

  /** What a registered tool returns for a user. */
  ghost predicate Fetches(db: Database, name: string, userId: string, records: seq<Record>) {
    if name == "get_user" then exists user :: OnFile(db, userId, user) && records == [user]
    else if name == "get_invoices" then
      exists rows: seq<AnInvoice> :: rows == records && rows != [] && Answers(db, db.invoices, userId, IssuedAt, rows)
    else
      exists rows: seq<ASession> :: rows == records && rows != [] && Answers(db, db.sessions, userId, StartedAt, rows)
  }

  /** And why it returns nothing. */
  ghost predicate Declines(db: Database, name: string, userId: string, x: Exn) {
    if name == "get_user" then NotOnFile(db, userId, x)
    else if name == "get_invoices" then Refused(db, db.invoices, userId, x)
    else Refused(db, db.sessions, userId, x)
  }

  /** The registry dispatches each tool to its own table, under its own name. */
  lemma RegistryAnswers(db: Database, name: string, userId: string)
    requires Registered(name) && userId != ""
    ensures match RunRegistered(db, name, map["user_id" := Str(userId)])
            case Success(result) => result.tool == name && Fetches(db, name, userId, result.records)
            case Failure(x) => Declines(db, name, userId, x)
  {
    GetUserExact(db, userId);
    CollectionExact(db, db.sessions, userId, "charging session", StartedAt);
    CollectionExact(db, db.invoices, userId, "invoice", IssuedAt);
  }

  /** Only the requested user's own rows matter: two databases that agree on them give the
      same answer, whatever the rows of other users are, malformed or not. */
  lemma CollectionIsolated<T>(a: Database, b: Database, s: Table<T>, t: Table<T>, userId: string, noun: string,
                              newest: T -> int)
    requires a.users.Success? && b.users.Success? && s.Success? && t.Success?
    requires RowsFor(a.users.value, userId) == RowsFor(b.users.value, userId)
    requires RowsFor(s.value, userId) == RowsFor(t.value, userId)
    ensures Collection(a, s, userId, noun, newest) == Collection(b, t, userId, noun, newest)
  {
    assert GetUser(a, userId) == GetUser(b, userId);
  }

  /** The same through the registry. */
  lemma RegistryIsolated(a: Database, b: Database, name: string, args: Fields, userId: string)
    requires args == map["user_id" := Str(userId)]
    requires a.users.Success? && b.users.Success? && a.sessions.Success? && b.sessions.Success?
    requires a.invoices.Success? && b.invoices.Success?
    requires RowsFor(a.users.value, userId) == RowsFor(b.users.value, userId)
    requires RowsFor(a.sessions.value, userId) == RowsFor(b.sessions.value, userId)
    requires RowsFor(a.invoices.value, userId) == RowsFor(b.invoices.value, userId)
    ensures RunRegistered(a, name, args) == RunRegistered(b, name, args)
  {
    CollectionIsolated(a, b, a.sessions, b.sessions, userId, "charging session", StartedAt);
    CollectionIsolated(a, b, a.invoices, b.invoices, userId, "invoice", IssuedAt);
  }

  lemma {:induction false} RowsForConcat<T>(a: seq<Row<T>>, b: seq<Row<T>>, userId: string)
    ensures RowsFor(a + b, userId) == RowsFor(a, userId) + RowsFor(b, userId)
  {
    if a == [] {
      assert a + b == b;
    } else {
      assert (a + b)[1..] == a[1..] + b;
      RowsForConcat(a[1..], b, userId);
    }
  }

  lemma RowsForOne<T>(row: Row<T>, userId: string)
    ensures RowsFor([row], userId) == if row.userId == Some(userId) then [row] else []
  {
    assert [row][1..] == [];
  }

  lemma RowsForLast<T>(front: seq<Row<T>>, last: Row<T>, rows: seq<Row<T>>, userId: string)
    requires rows == front + [last]
    ensures RowsFor(rows, userId) == RowsFor(front, userId) + if last.userId == Some(userId) then [last] else []
  {
    RowsForConcat(front, [last], userId);
    RowsForOne(last, userId);
  }

  /** `at` are the positions of the user's rows, all of them and no other, in order. */
  ghost predicate FiledAt<T>(at: seq<nat>, rows: seq<Row<T>>, userId: string) {
    (forall i, j :: 0 <= i < j < |at| ==> at[i] < at[j]) && (forall j :: 0 <= j < |at| ==> at[j] < |rows|) &&
    forall k :: 0 <= k < |rows| ==> (k in at <==> rows[k].userId == Some(userId))
  }

  /** `found` are the rows at these positions. */
  ghost predicate RowsAt<T>(at: seq<nat>, rows: seq<Row<T>>, found: seq<Row<T>>) {
    |found| == |at| && forall j :: 0 <= j < |at| ==> at[j] < |rows| && found[j] == rows[at[j]]
  }

  lemma FiledNext<T>(at: seq<nat>, front: seq<Row<T>>, last: Row<T>, userId: string)
    requires FiledAt(at, front, userId)
    ensures FiledAt(if last.userId == Some(userId) then at + [|front|] else at, front + [last], userId)
  {
    var rows, more := front + [last], if last.userId == Some(userId) then at + [|front|] else at;
    forall k | 0 <= k < |rows| ensures k in more <==> rows[k].userId == Some(userId) {
      if k < |front| { assert rows[k] == front[k] && (k in more <==> k in at); }
    }
  }

  lemma RowsAtNext<T>(at: seq<nat>, front: seq<Row<T>>, last: Row<T>, found: seq<Row<T>>)
    requires RowsAt(at, front, found)
    ensures RowsAt(at, front + [last], found) && RowsAt(at + [|front|], front + [last], found + [last])
  {
  }

  /** The rows found are exactly the user's, each once, in the order of the table. */
  lemma {:induction false} FiledRows<T>(rows: seq<Row<T>>, userId: string) returns (at: seq<nat>)
    ensures FiledAt(at, rows, userId) && RowsAt(at, rows, RowsFor(rows, userId))
  {
    if rows == [] {
      at := [];
    } else {
      var front, last := rows[..|rows| - 1], rows[|rows| - 1];
      assert rows == front + [last];
      var before := FiledRows(front, userId);
      FiledNext(before, front, last, userId);
      RowsForLast(front, last, rows, userId);
      RowsAtNext(before, front, last, RowsFor(front, userId));
      at := if last.userId == Some(userId) then before + [|front|] else before;
    }
  }

  /** A row filed under another user never matters, wherever it stands in the table. */
  lemma OthersAreFilteredOut<T>(front: seq<Row<T>>, row: Row<T>, back: seq<Row<T>>, userId: string)
    requires row.userId != Some(userId)
    ensures RowsFor(front + [row] + back, userId) == RowsFor(front + back, userId)
  {
    RowsForConcat(front + [row], back, userId);
    RowsForLast(front, row, front + [row], userId);
    RowsForConcat(front, back, userId);
  }
}

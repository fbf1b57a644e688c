/**
 * internal/repository: PostgresRepo over a database that knows the two statements the repository sends. SQL text is
 * reduced to its placeholders; everything else about the statements is fixed.
 */
module Repository {
  import opened Base
  import opened Errors
  import opened Domain
  import opened Messages
  import Sorting
  import opened Store

  /** An argument of a statement; NullTime is sql.NullTime. */
  datatype Arg = Int(n: int) | Text(s: string) | NullTime(t: Option<Time>)

  /** One "($a, $b, $c, $d)" of the VALUES list: the numbers of its placeholders. */
  datatype Tuple = Tuple(userId: nat, kind: nat, amount: nat, timestamp: nat)

  function Placeholders(t: Tuple): seq<nat> {
    [t.userId, t.kind, t.amount, t.timestamp]
  }

  /** The argument a placeholder stands for; placeholders count from one. */
  function Lookup(args: seq<Arg>, placeholder: nat): Option<Arg> {
    if 1 <= placeholder <= |args| then Some(args[placeholder - 1]) else None
  }

  /** The row a tuple denotes, provided its placeholders exist and have the types of the columns. */
  function Bind(t: Tuple, args: seq<Arg>): Option<Row> {
    match (Lookup(args, t.userId), Lookup(args, t.kind), Lookup(args, t.amount), Lookup(args, t.timestamp))
    case (Some(Int(userId)), Some(Text(kind)), Some(Int(amount)), Some(NullTime(timestamp))) =>
      Some(Row(userId, kind, amount, timestamp))
    case _ => None
  }

  /** The CHECK constraint of the type column. */
  predicate Admissible(row: Row) {
    row.kind == BET || row.kind == WIN
  }

  function InsertAll(table: Table, rows: seq<Row>): Table
    decreases |rows|
  {
    if rows == [] then table else InsertAll(Insert(table, rows[0]), rows[1..])
  }

  predicate Insertable(tuples: seq<Tuple>, args: seq<Arg>) {
    forall i :: 0 <= i < |tuples| ==> Bind(tuples[i], args).Some? && Admissible(Bind(tuples[i], args).value)
  }

  function BoundRows(tuples: seq<Tuple>, args: seq<Arg>): seq<Row>
    requires Insertable(tuples, args)
  {
    seq(|tuples|, i requires 0 <= i < |tuples| => Bind(tuples[i], args).value)
  }

  /** How a call fails for reasons of its own, and whether the statement took effect all the same. */
  datatype Fault = NoFault | Fault(error: Error, applied: bool)

  /** A row fetched from the database, as the repository scans it. */
  function TransactionOf(row: Row): Transaction {
    Transaction(row.userId, row.kind, row.amount, if row.timestamp.Some? then row.timestamp.value else ZERO_TIME)
  }

  // ---------------------------------------------------------------------------------------------------------
  // What SaveBulk builds
  // ---------------------------------------------------------------------------------------------------------

  function TupleAt(i: nat): Tuple {
    Tuple(4 * i + 1, 4 * i + 2, 4 * i + 3, 4 * i + 4)
  }

  function Tuples(n: nat): seq<Tuple> {
    seq(n, i requires 0 <= i < n => TupleAt(i))
  }

  function TimestampArg(t: Transaction): Option<Time> {
    if t.timestamp == ZERO_TIME then None else Some(t.timestamp)
  }

  function ArgsOf(t: Transaction): seq<Arg> {
    [Int(t.userId), Text(t.kind), Int(t.amount), NullTime(TimestampArg(t))]
  }

  function Args(txs: seq<Transaction>): seq<Arg> {
    if txs == [] then [] else Args(txs[..|txs| - 1]) + ArgsOf(txs[|txs| - 1])
  }

  function AllPlaceholders(tuples: seq<Tuple>): seq<nat> {
    if tuples == [] then [] else AllPlaceholders(tuples[..|tuples| - 1]) + Placeholders(tuples[|tuples| - 1])
  }

  /** The placeholders of the generated statement are 1 to 4n, each once and in order. */
  lemma {:induction false} PlaceholdersCountUp(n: nat)
    ensures var ps := AllPlaceholders(Tuples(n));
            |ps| == 4 * n && forall k :: 0 <= k < 4 * n ==> ps[k] == k + 1
  {
    if n > 0 {
      PlaceholdersCountUp(n - 1);
      assert Tuples(n)[..n - 1] == Tuples(n - 1);
    }
  }

  lemma {:induction false} ArgsAt(txs: seq<Transaction>, i: nat)
    requires i < |txs|
    ensures |Args(txs)| == 4 * |txs|
    ensures Args(txs)[4 * i..4 * i + 4] == ArgsOf(txs[i])
  {
    var front := txs[..|txs| - 1];
    ArgsLength(front);
    if i < |front| {
      ArgsAt(front, i);
      assert Args(txs)[4 * i..4 * i + 4] == Args(front)[4 * i..4 * i + 4];
    }
  }

  lemma {:induction false} ArgsLength(txs: seq<Transaction>)
    ensures |Args(txs)| == 4 * |txs|
  {
    if txs != [] {
      ArgsLength(txs[..|txs| - 1]);
    }
  }

  /** Binding the arguments to the i-th tuple gives the row of the i-th transaction. */
  lemma TupleBindsRow(txs: seq<Transaction>, i: nat)
    requires i < |txs|
    ensures Bind(TupleAt(i), Args(txs)) == Some(RowOf(txs[i]))
  {
    hide Args;
    ArgsAt(txs, i);
    LookupSlice(Args(txs), 4 * i);
    hide Lookup;
    BindsTo(TupleAt(i), Args(txs), txs[i]);
  }

  lemma BindsTo(t: Tuple, args: seq<Arg>, tx: Transaction)
    requires Lookup(args, t.userId) == Some(Int(tx.userId)) && Lookup(args, t.kind) == Some(Text(tx.kind))
    requires Lookup(args, t.amount) == Some(Int(tx.amount))
    requires Lookup(args, t.timestamp) == Some(NullTime(TimestampArg(tx)))
    ensures Bind(t, args) == Some(RowOf(tx))
  {
    hide Lookup;
  }

  lemma LookupSlice(args: seq<Arg>, from: nat)
    requires from + 4 <= |args|
    ensures var slice := args[from..from + 4];
            && Lookup(args, from + 1) == Some(slice[0]) && Lookup(args, from + 2) == Some(slice[1])
            && Lookup(args, from + 3) == Some(slice[2]) && Lookup(args, from + 4) == Some(slice[3])
  {
  }

  predicate AllAdmissible(txs: seq<Transaction>) {
    forall i :: 0 <= i < |txs| ==> Admissible(RowOf(txs[i]))
  }

  /**
   * The rows of the statement are the rows of the transactions, so inserting them is saving the transactions in turn.
   * The database refuses the statement when one of the types is neither of the two.
   */
  lemma BulkIsSaveAll(table: Table, txs: seq<Transaction>)
    ensures Insertable(Tuples(|txs|), Args(txs)) <==> AllAdmissible(txs)
    ensures AllAdmissible(txs) <==> forall t :: t in txs ==> t.kind == "bet" || t.kind == "win"
    ensures AllAdmissible(txs) ==> InsertAll(table, BoundRows(Tuples(|txs|), Args(txs))) == SaveAll(table, txs)
  {
    forall i | 0 <= i < |txs| ensures Bind(Tuples(|txs|)[i], Args(txs)) == Some(RowOf(txs[i])) {
      TupleBindsRow(txs, i);
    }
    if AllAdmissible(txs) {
      InsertAllIsSaveAll(table, BoundRows(Tuples(|txs|), Args(txs)), txs);
    } else {
      var i :| 0 <= i < |txs| && !Admissible(RowOf(txs[i]));
      assert !Admissible(Bind(Tuples(|txs|)[i], Args(txs)).value);
    }
  }

  lemma {:induction false} InsertAllIsSaveAll(table: Table, rows: seq<Row>, txs: seq<Transaction>)
    requires |rows| == |txs| && forall i :: 0 <= i < |rows| ==> rows[i] == RowOf(txs[i])
    ensures InsertAll(table, rows) == SaveAll(table, txs)
    decreases |rows|
  {
    if rows != [] {
      InsertAllIsSaveAll(SaveOne(table, txs[0]), rows[1..], txs[1..]);
    }
  }

  // ---------------------------------------------------------------------------------------------------------
  // One statement for all, or one statement each
  // ---------------------------------------------------------------------------------------------------------

  /** The table after Save of one transaction on a working connection: unchanged when the type is refused. */
  function AfterSave(table: Table, t: Transaction): Table {
    if Admissible(RowOf(t)) then SaveOne(table, t) else table
  }

  /** The table after SaveBulk on a working connection: the statement is applied as a whole or not at all. */
  function AfterSaveBulk(table: Table, txs: seq<Transaction>): Table {
    if AllAdmissible(txs) then SaveAll(table, txs) else table
  }

  function AfterEachSave(table: Table, txs: seq<Transaction>): Table
    decreases |txs|
  {
    if txs == [] then table else AfterEachSave(AfterSave(table, txs[0]), txs[1..])
  }

  /** The admissible transactions, in order. */
  function AdmissibleOnly(txs: seq<Transaction>): seq<Transaction> {
    if txs == [] then []
    else (if Admissible(RowOf(txs[0])) then [txs[0]] else []) + AdmissibleOnly(txs[1..])
  }

  lemma {:induction false} AdmissibleOnlyMembers(txs: seq<Transaction>, t: Transaction)
    ensures t in AdmissibleOnly(txs) <==> t in txs && Admissible(RowOf(t))
  {
    if txs != [] {
      AdmissibleOnlyMembers(txs[1..], t);
    }
  }

  lemma {:induction false} AdmissibleOnlyIsAll(txs: seq<Transaction>)
    requires AllAdmissible(txs)
    ensures AdmissibleOnly(txs) == txs
  {
    if txs != [] {
      AdmissibleOnlyIsAll(txs[1..]);
    }
  }

  lemma {:induction false} EachSaveSavesAdmissible(table: Table, txs: seq<Transaction>)
    ensures AfterEachSave(table, txs) == SaveAll(table, AdmissibleOnly(txs))
    decreases |txs|
  {
    if txs != [] {
      EachSaveSavesAdmissible(AfterSave(table, txs[0]), txs[1..]);
      if Admissible(RowOf(txs[0])) {
        assert AdmissibleOnly(txs)[1..] == AdmissibleOnly(txs[1..]);
      } else {
        assert AdmissibleOnly(txs) == AdmissibleOnly(txs[1..]);
      }
    }
  }

  /**
   * A bulk insert leaves the table that inserting one at a time would, if and only if the database refuses none of the
   * rows, or every row it does not refuse was there already. Duplicates inside the list make no difference.
   */
  lemma BulkEqualsEachIff(table: Table, txs: seq<Transaction>)
    ensures AfterSaveBulk(table, txs) == AfterEachSave(table, txs)
       <==> AllAdmissible(txs) || (forall t :: t in txs && Admissible(RowOf(t)) ==> RowOf(t) in table)
  {
    EachSaveSavesAdmissible(table, txs);
    var admissible := AdmissibleOnly(txs);
    forall t ensures t in admissible <==> t in txs && Admissible(RowOf(t)) {
      AdmissibleOnlyMembers(txs, t);
    }
    hide Admissible;
    if AllAdmissible(txs) {
      AdmissibleOnlyIsAll(txs);
    } else if forall t :: t in txs && Admissible(RowOf(t)) ==> RowOf(t) in table {
      SaveAllAgain(table, admissible);
    } else {
      var t :| t in txs && Admissible(RowOf(t)) && RowOf(t) !in table;
      SaveAllRows(table, admissible, RowOf(t));
    }
  }

  lemma ParsedIsValidated(payload: Payload)
    requires Parse(payload).Ok?
    ensures Validate(Parse(payload).value).None?
  {
    hide Validate, ToDomain;
  }

  /**
   * What the consumer parses the database never refuses, so for its batches one statement and one each always agree.
   */
  lemma ParsedBatchesAgree(table: Table, payloads: seq<Payload>, txs: seq<Transaction>)
    requires |payloads| == |txs| && forall i :: 0 <= i < |txs| ==> Parse(payloads[i]) == Ok(txs[i])
    ensures AllAdmissible(txs)
    ensures AfterSaveBulk(table, txs) == AfterEachSave(table, txs) == SaveAll(table, txs)
  {
    forall i | 0 <= i < |txs| ensures Admissible(RowOf(txs[i])) {
      ParsedIsValidated(payloads[i]);
      hide Parse;
    }
    BulkEqualsEachIff(table, txs);
  }

  // ---------------------------------------------------------------------------------------------------------
  // Queries
  // ---------------------------------------------------------------------------------------------------------

  /** A conjunct of the WHERE clause, with its placeholder. */
  datatype Condition = UserIs(placeholder: nat) | TypeIs(placeholder: nat)

  predicate Satisfies(row: Row, c: Condition, args: seq<Arg>) {
    match c
    case UserIs(p) => Lookup(args, p) == Some(Int(row.userId))
    case TypeIs(p) => Lookup(args, p) == Some(Text(row.kind))
  }

  predicate SatisfiesAll(row: Row, conditions: seq<Condition>, args: seq<Arg>) {
    forall i :: 0 <= i < |conditions| ==> Satisfies(row, conditions[i], args)
  }

  /** The filter a caller of Get asks for: user 0 or less, and no type, mean all. */
  predicate Wanted(row: Row, userId: int, kind: Option<string>) {
    (userId > 0 ==> row.userId == userId) && (kind.Some? ==> row.kind == kind.value)
  }

  /** timestamp DESC NULLS LAST: a may come before b. */
  predicate NoLaterThan(a: Row, b: Row) {
    b.timestamp.None? || (a.timestamp.Some? && a.timestamp.value >= b.timestamp.value)
  }

  /** No row comes before a later one, and the rows without a time come last. */
  predicate NewestFirst(rows: seq<Row>) {
    forall i, j :: 0 <= i < j < |rows| ==>
                     || rows[j].timestamp.None?
                     || (rows[i].timestamp.Some? && rows[i].timestamp.value >= rows[j].timestamp.value)
  }

  function Filter(table: Table, conditions: seq<Condition>, args: seq<Arg>): seq<Row> {
    if table == [] then []
    else (if SatisfiesAll(table[0], conditions, args) then [table[0]] else []) + Filter(table[1..], conditions, args)
  }

  /** The rows that satisfy the conditions, as often as they are in the table. */
  lemma {:induction false} FilterKeeps(table: Table, conditions: seq<Condition>, args: seq<Arg>, row: Row)
    ensures multiset(Filter(table, conditions, args))[row]
         == if SatisfiesAll(row, conditions, args) then multiset(table)[row] else 0
  {
    if table != [] {
      FilterKeeps(table[1..], conditions, args, row);
      hide SatisfiesAll;
      assert table == [table[0]] + table[1..];
    }
  }

  class Database {
    var table: Table

    constructor ()
      ensures table == []
    {
      table := [];
    }

    /** ExecContext of the INSERT statement. */
    method ExecInsert(tuples: seq<Tuple>, args: seq<Arg>, fault: Fault) returns (err: Option<Error>)
      modifies this
      ensures fault.NoFault? ==> (err.None? <==> Insertable(tuples, args))
      ensures fault.Fault? ==> err == Some(fault.error)
      ensures table == if Insertable(tuples, args) && (fault.NoFault? || fault.applied)
                       then InsertAll(old(table), BoundRows(tuples, args)) else old(table)
    {
      err := None;
      if Insertable(tuples, args) && (fault.NoFault? || fault.applied) {
        table := InsertAll(table, BoundRows(tuples, args));
      }
      if fault.Fault? {
        err := Some(fault.error);
      } else if !Insertable(tuples, args) {
        err := Some(Other("statement refused"));
      }
    }

    /** QueryContext of the SELECT statement, all rows. */
    method Query(conditions: seq<Condition>, args: seq<Arg>) returns (rows: seq<Row>)
      ensures forall i, j :: 0 <= i < j < |rows| ==>
                               || rows[j].timestamp.None?
                               || (rows[i].timestamp.Some? && rows[i].timestamp.value >= rows[j].timestamp.value)
      ensures forall row :: multiset(rows)[row]
                         == if SatisfiesAll(row, conditions, args) then multiset(table)[row] else 0
    {
      var found := Filter(table, conditions, args);
      rows := Sorting.InOrder(found, NoLaterThan);
      assert Sorting.TotalPreorder(NoLaterThan);
      Sorting.InOrderIsSorted(found, NoLaterThan);
      Sorting.InOrderKeeps(found, NoLaterThan);
      forall row ensures multiset(rows)[row]
                      == if SatisfiesAll(row, conditions, args) then multiset(table)[row] else 0 {
        FilterKeeps(table, conditions, args, row);
      }
    }
  }

  class PostgresRepo {
    /** nil until a connection has been set up. */
    const db: Database?

    constructor (db: Database?)
      ensures this.db == db
    {
      this.db := db;
    }

    method Save(t: Transaction, fault: Fault) returns (err: Option<Error>)
      modifies db
      ensures db == null ==> err == Some(RepoNotInitialized)
      ensures db != null && fault.NoFault? ==> (err.None? <==> Admissible(RowOf(t)))
      ensures db != null && fault.Fault? ==> err == Some(fault.error)
      ensures db != null ==>
                db.table == if fault.NoFault? || fault.applied then AfterSave(old(db.table), t) else old(db.table)
    {
      if db == null {
        return Some(RepoNotInitialized);
      }
      var ts: Option<Time> := None;
      if t.timestamp != ZERO_TIME {
        ts := Some(t.timestamp);
      }
      ghost var before := db.table;
      var tuple := Tuple(1, 2, 3, 4);
      var args := [Int(t.userId), Text(t.kind), Int(t.amount), NullTime(ts)];
      assert Bind(tuple, args) == Some(RowOf(t));
      assert Insertable([tuple], args) <==> Admissible(RowOf(t)) by { assert [tuple][0] == tuple; }
      err := db.ExecInsert([tuple], args, fault);
      if Insertable([tuple], args) {
        assert BoundRows([tuple], args) == [RowOf(t)];
      }
    }

    method SaveBulk(txs: seq<Transaction>, fault: Fault) returns (err: Option<Error>)
      modifies db
      ensures db == null ==> err == Some(RepoNotInitialized)
      ensures db != null && txs == [] ==> err == None
      ensures db != null && txs != [] && fault.NoFault? ==> (err.None? <==> AllAdmissible(txs))
      ensures db != null && txs != [] && fault.Fault? ==> err == Some(fault.error)
      ensures db != null ==>
                db.table == if fault.NoFault? || fault.applied then AfterSaveBulk(old(db.table), txs) else old(db.table)
    {
      if db == null {
        return Some(RepoNotInitialized);
      }
      if |txs| == 0 {
        return None;
      }
      var tuples: seq<Tuple> := [];
      var args: seq<Arg> := [];
      for i := 0 to |txs|
        invariant tuples == Tuples(i)
        invariant args == Args(txs[..i])
        invariant db.table == old(db.table)
      {
        var t := txs[i];
        tuples := tuples + [Tuple(i * 4 + 1, i * 4 + 2, i * 4 + 3, i * 4 + 4)];
        var ts: Option<Time> := None;
        if t.timestamp != ZERO_TIME {
          ts := Some(t.timestamp);
        }
        args := args + [Int(t.userId), Text(t.kind), Int(t.amount), NullTime(ts)];
        assert txs[..i + 1][..i] == txs[..i];
      }
      assert txs[..|txs|] == txs;
      BulkIsSaveAll(db.table, txs);
      err := db.ExecInsert(tuples, args, fault);
    }

    method Get(userId: int, kind: Option<string>, fault: Fault) returns (txs: seq<Transaction>, err: Option<Error>)
      ensures db == null ==> err == Some(RepoNotInitialized)
      ensures db != null && fault.Fault? ==> err == Some(fault.error)
      ensures err.Some? ==> txs == []
      ensures db != null && fault.NoFault? ==> err.None? && exists rows :: IsAnswer(rows, db.table, userId, kind, txs)
      ensures forall i, j :: 0 <= i < j < |txs| && txs[j].timestamp != ZERO_TIME && txs[i].timestamp != ZERO_TIME ==>
                               txs[i].timestamp >= txs[j].timestamp
    {
      txs := [];
      if db == null {
        return [], Some(RepoNotInitialized);
      }
      var conditions: seq<Condition> := [];
      var args: seq<Arg> := [];
      if userId > 0 {
        args := args + [Int(userId)];
        conditions := conditions + [UserIs(|args|)];
      }
      if kind.Some? {
        args := args + [Text(kind.value)];
        conditions := conditions + [TypeIs(|args|)];
      }
      if fault.Fault? {
        return [], Some(fault.error);
      }
      var rows := db.Query(conditions, args);
      for i := 0 to |rows|
        invariant |txs| == i && forall k :: 0 <= k < i ==> txs[k] == TransactionOf(rows[k])
      {
        var t := Transaction(rows[i].userId, rows[i].kind, rows[i].amount, ZERO_TIME);
        if rows[i].timestamp.Some? {
          t := t.(timestamp := rows[i].timestamp.value);
        }
        txs := txs + [t];
      }
      err := None;
      forall row ensures SatisfiesAll(row, conditions, args) <==> Wanted(row, userId, kind) {
        ConditionsMeanWanted(row, userId, kind, conditions, args);
      }
      assert IsAnswer(rows, db.table, userId, kind, txs);
    }
  }

  lemma ConditionsMeanWanted(row: Row, userId: int, kind: Option<string>, conditions: seq<Condition>, args: seq<Arg>)
    requires args == (if userId > 0 then [Int(userId)] else []) + (if kind.Some? then [Text(kind.value)] else [])
    requires conditions == (if userId > 0 then [UserIs(1)] else []) + (if kind.Some? then [TypeIs(|args|)] else [])
    ensures SatisfiesAll(row, conditions, args) <==> Wanted(row, userId, kind)
  {
    if SatisfiesAll(row, conditions, args) {
      assert userId > 0 ==> Satisfies(row, conditions[0], args);
      assert kind.Some? ==> Satisfies(row, conditions[|conditions| - 1], args);
    }
  }

  /** txs lists the wanted rows of the table, each as often as it is there, the newest first. */
  ghost predicate IsAnswer(rows: seq<Row>, table: Table, userId: int, kind: Option<string>, txs: seq<Transaction>) {
    && NewestFirst(rows)
    && (forall row :: multiset(rows)[row] == if Wanted(row, userId, kind) then multiset(table)[row] else 0)
    && |txs| == |rows| && forall i :: 0 <= i < |txs| ==> txs[i] == TransactionOf(rows[i])
  }

  /** No information is lost on the way to a row and back: a missing timestamp stays missing, as NULL. */
  lemma RowRoundTrip(t: Transaction)
    ensures TransactionOf(RowOf(t)) == t
    ensures RowOf(t).timestamp.None? <==> t.timestamp == ZERO_TIME
  {
  }

  /**
   * What was saved can be read back: after saving txs, a query answers exactly with the wanted transactions among them
   * and the wanted rows that were there before, each once.
   */
  lemma SavedIsRead(
      table: Table, txs: seq<Transaction>, rows: seq<Row>, userId: int, kind: Option<string>, answer: seq<Transaction>)
    requires NoDuplicates(table)
    requires IsAnswer(rows, SaveAll(table, txs), userId, kind, answer)
    ensures NoDuplicates(rows)
    ensures forall t :: t in txs && Wanted(RowOf(t), userId, kind) ==> t in answer
    ensures forall a :: a in answer ==>
              exists row :: a == TransactionOf(row) && Wanted(row, userId, kind) && (row in table || row in Rows(txs))
    ensures forall row :: row in table && Wanted(row, userId, kind) ==> TransactionOf(row) in answer
  {
    hide NewestFirst;
    var table' := SaveAll(table, txs);
    SaveAllKeepsUnique(table, txs);
    forall i, j | 0 <= i < j < |rows| ensures rows[i] != rows[j] {
      if rows[i] == rows[j] {
        TwiceInMultiset(rows, i, j);
        OnceInMultiset(table', rows[i]);
      }
    }
    forall t | t in txs && Wanted(RowOf(t), userId, kind) ensures t in answer {
      SaveAllRows(table, txs, RowOf(t));
      RowRoundTrip(t);
      assert RowOf(t) in multiset(table');
      assert RowOf(t) in multiset(rows);
    }
    forall row | row in table && Wanted(row, userId, kind) ensures TransactionOf(row) in answer {
      SaveAllRows(table, txs, row);
      assert row in multiset(table');
      assert row in multiset(rows);
      var i :| 0 <= i < |rows| && rows[i] == row;
      assert answer[i] == TransactionOf(row);
    }
    forall a | a in answer
      ensures exists row :: a == TransactionOf(row) && Wanted(row, userId, kind) && (row in table || row in Rows(txs))
    {
      var i :| 0 <= i < |answer| && answer[i] == a;
      assert rows[i] in multiset(rows);
      assert rows[i] in multiset(table');
      SaveAllRows(table, txs, rows[i]);
      if rows[i] !in table {
        var k :| 0 <= k < |txs| && RowOf(txs[k]) == rows[i];
        assert Rows(txs)[k] == rows[i];
      }
    }
  }

  function Rows(txs: seq<Transaction>): seq<Row> {
    seq(|txs|, i requires 0 <= i < |txs| => RowOf(txs[i]))
  }

  lemma TwiceInMultiset(rows: seq<Row>, i: nat, j: nat)
    requires i < j < |rows| && rows[i] == rows[j]
    ensures multiset(rows)[rows[i]] >= 2
  {
    assert rows == rows[..j] + [rows[j]] + rows[j + 1..];
    assert rows[i] == rows[..j][i];
    assert rows[i] in multiset(rows[..j]);
  }

  lemma {:induction false} OnceInMultiset(rows: seq<Row>, row: Row)
    requires NoDuplicates(rows)
    ensures multiset(rows)[row] <= 1
  {
    if rows != [] {
      assert rows == [rows[0]] + rows[1..];
      OnceInMultiset(rows[1..], row);
      if rows[0] == row {
        assert row !in multiset(rows[1..]);
      }
    }
  }
}

/** The transactions table: rows unique on (user, type, amount, timestamp), a missing timestamp being one value. */
module Store {
  import opened Base
  import opened Domain

  datatype Row = Row(userId: int, kind: string, amount: int, timestamp: Option<Time>)

  type Table = seq<Row>

  function RowOf(t: Transaction): Row {
    Row(t.userId, t.kind, t.amount, if t.timestamp == ZERO_TIME then None else Some(t.timestamp))
  }

  /** INSERT ... ON CONFLICT DO NOTHING of one row. */
  function Insert(table: Table, row: Row): Table {
    if row in table then table else table + [row]
  }

  function SaveOne(table: Table, t: Transaction): Table {
    Insert(table, RowOf(t))
  }

  /** Saving the transactions one after the other. */
  function SaveAll(table: Table, txs: seq<Transaction>): Table
    decreases |txs|
  {
    if txs == [] then table else SaveAll(SaveOne(table, txs[0]), txs[1..])
  }

  predicate NoDuplicates(table: Table) {
    forall i, j :: 0 <= i < j < |table| ==> table[i] != table[j]
  }

  lemma {:induction false} SaveAllGrows(table: Table, txs: seq<Transaction>)
    ensures table <= SaveAll(table, txs)
    decreases |txs|
  {
    if txs != [] {
      SaveAllGrows(SaveOne(table, txs[0]), txs[1..]);
    }
  }

  /** The unique key: no interleaving of inserts ever stores a row twice. */
  lemma {:induction false} SaveAllKeepsUnique(table: Table, txs: seq<Transaction>)
    requires NoDuplicates(table)
    ensures NoDuplicates(SaveAll(table, txs))
    decreases |txs|
  {
    if txs != [] {
      SaveAllKeepsUnique(SaveOne(table, txs[0]), txs[1..]);
    }
  }

  /** The rows of the new table are the old rows and the rows of the transactions, and nothing else. */
  lemma {:induction false} SaveAllRows(table: Table, txs: seq<Transaction>, row: Row)
    ensures row in SaveAll(table, txs) <==> row in table || exists i :: 0 <= i < |txs| && RowOf(txs[i]) == row
    decreases |txs|
  {
    if txs != [] {
      SaveAllRows(SaveOne(table, txs[0]), txs[1..], row);
      assert forall i :: 0 < i < |txs| ==> txs[i] == txs[1..][i - 1];
    }
  }

  /** Redelivery: saving transactions whose rows are all stored changes nothing. */
  lemma {:induction false} SaveAllAgain(table: Table, txs: seq<Transaction>)
    requires forall i :: 0 <= i < |txs| ==> RowOf(txs[i]) in table
    ensures SaveAll(table, txs) == table
    decreases |txs|
  {
    if txs != [] {
      SaveAllAgain(table, txs[1..]);
    }
  }

  lemma SaveAllSingle(table: Table, tx: Transaction)
    ensures SaveAll(table, [tx]) == SaveOne(table, tx)
  {
    assert [tx][1..] == [];
  }

  lemma {:induction false} SaveAllAppend(table: Table, a: seq<Transaction>, b: seq<Transaction>)
    ensures SaveAll(table, a + b) == SaveAll(SaveAll(table, a), b)
    decreases |a|
  {
    if a == [] {
      assert a + b == b;
    } else {
      assert (a + b)[1..] == a[1..] + b;
      SaveAllAppend(SaveOne(table, a[0]), a[1..], b);
    }
  }
}

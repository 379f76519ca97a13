/**
 * The per-thread checkpoint store behind `MessageRepository`
 * (src/repositories/message_repository.py).
 *
 * The three tables the repository touches are in-memory sequences of rows, each
 * row tagged with the conversation thread it belongs to. SQL's `WHERE thread_id = %s`
 * becomes `Select`, and `DELETE ... WHERE thread_id = %s` becomes `Purge`.
 */
module MessageRepository {
  import opened Wrappers
  import opened PyValues

  /** A row of any of the three tables: the thread it belongs to and the other columns. */
  datatype Row<+D> = Row(threadId: string, data: D)

  /** Columns of `checkpoints` that the repository reads. */
  datatype CheckpointData = CheckpointData(checkpointId: string, metadata: Value)
  /** Columns of `checkpoint_writes` (key columns and the written value). */
  datatype WriteData = WriteData(checkpointId: string, taskId: string, channel: string, value: Value)
  /** Columns of `checkpoint_blobs`. */
  datatype BlobData = BlobData(channel: string, version: string, blob: seq<bv8>)

  /** The record `get_messages_by_user` returns for one fetched tuple. */
  datatype CheckpointRecord = CheckpointRecord(id: string, threadId: string, metadata: Value)

  datatype Table = Checkpoints | CheckpointWrites | CheckpointBlobs

  /** A statement sent to the database, in the order it was sent. */
  datatype Statement = Delete(table: Table, threadId: string) | Commit

  /** The three tables at one moment. */
  datatype Tables = Tables(
    checkpoints: seq<Row<CheckpointData>>,
    writes: seq<Row<WriteData>>,
    blobs: seq<Row<BlobData>>)

  /** The order in which `delete_all_messages` issues its DELETE statements. */
  const PurgeOrder: seq<Table> := [Checkpoints, CheckpointWrites, CheckpointBlobs]

  /** `SELECT ... WHERE thread_id = u`, in table order. */
  function Select<D>(table: seq<Row<D>>, u: string): (r: seq<Row<D>>)
    ensures |r| <= |table|
    ensures forall x | x in r :: x in table && x.threadId == u
    ensures forall x | x in table && x.threadId == u :: x in r
  {
    if table == [] then []
    else (if table[0].threadId == u then [table[0]] else []) + Select(table[1..], u)
  }

  /** `DELETE FROM table WHERE thread_id = u`: the rows that survive, in table order. */
  function Purge<D>(table: seq<Row<D>>, u: string): (r: seq<Row<D>>)
    ensures |r| <= |table|
    ensures forall x | x in r :: x in table && x.threadId != u
    ensures forall x | x in table && x.threadId != u :: x in r
  {
    if table == [] then []
    else (if table[0].threadId != u then [table[0]] else []) + Purge(table[1..], u)
  }

  /** One DELETE statement applied to the tables. */
  function PurgeTable(t: Tables, which: Table, u: string): Tables {
    match which
    case Checkpoints => t.(checkpoints := Purge(t.checkpoints, u))
    case CheckpointWrites => t.(writes := Purge(t.writes, u))
    case CheckpointBlobs => t.(blobs := Purge(t.blobs, u))
  }

  /** The tables after the first `n` statements of the purge have run. */
  function PurgeFirst(t: Tables, u: string, n: nat): Tables
    requires n <= |PurgeOrder|
  {
    if n == 0 then t else PurgeTable(PurgeFirst(t, u, n - 1), PurgeOrder[n - 1], u)
  }

  /** `{"id": row[0], "thread_id": row[1], "metadata": row[2]}` for each fetched tuple. */
  function ToRecords(rows: seq<Row<CheckpointData>>): (r: seq<CheckpointRecord>)
    ensures |r| == |rows|
    ensures forall i | 0 <= i < |rows| ::
      r[i].id == rows[i].data.checkpointId && r[i].threadId == rows[i].threadId
      && r[i].metadata == rows[i].data.metadata
  {
    if rows == [] then []
    else
      var head := CheckpointRecord(rows[0].data.checkpointId, rows[0].threadId, rows[0].data.metadata);
      [head] + ToRecords(rows[1..])
  }

  /** A purged table holds no row of the purged thread, and every other thread reads as before. */
  lemma {:induction false} SelectAfterPurge<D>(table: seq<Row<D>>, u: string, v: string)
    ensures Select(Purge(table, u), v) == if u == v then [] else Select(table, v)
  {
    if table != [] {
      SelectAfterPurge(table[1..], u, v);
      assert table == [table[0]] + table[1..];
      var head := if table[0].threadId != u then [table[0]] else [];
      SelectDistributes(head, Purge(table[1..], u), v);
    }
  }

  lemma {:induction false} SelectDistributes<D>(a: seq<Row<D>>, b: seq<Row<D>>, u: string)
    ensures Select(a + b, u) == Select(a, u) + Select(b, u)
  {
    if a == [] {
      assert a + b == b;
    } else {
      assert (a + b)[1..] == a[1..] + b;
      SelectDistributes(a[1..], b, u);
    }
  }

  /** Deleting a thread twice has the effect of deleting it once. */
  lemma {:induction false} PurgeIdempotent<D>(table: seq<Row<D>>, u: string)
    ensures Purge(Purge(table, u), u) == Purge(table, u)
  {
    if table != [] {
      PurgeIdempotent(table[1..], u);
      var head := if table[0].threadId != u then [table[0]] else [];
      PurgeDistributes(head, Purge(table[1..], u), u);
    }
  }

  lemma {:induction false} PurgeDistributes<D>(a: seq<Row<D>>, b: seq<Row<D>>, u: string)
    ensures Purge(a + b, u) == Purge(a, u) + Purge(b, u)
  {
    if a == [] {
      assert a + b == b;
    } else {
      assert (a + b)[1..] == a[1..] + b;
      PurgeDistributes(a[1..], b, u);
    }
  }

  /** Rows of every other thread keep their order and multiplicity through a purge. */
  lemma {:induction false} PurgeKeepsOtherThreads<D>(table: seq<Row<D>>, u: string)
    ensures forall v | v != u :: Select(Purge(table, u), v) == Select(table, v)
  {
    forall v | v != u
      ensures Select(Purge(table, u), v) == Select(table, v)
    {
      SelectAfterPurge(table, u, v);
    }
  }

  /** The complete purge removes the thread from all three tables. */
  lemma CompletePurge(t: Tables, u: string)
    ensures PurgeFirst(t, u, |PurgeOrder|)
      == Tables(Purge(t.checkpoints, u), Purge(t.writes, u), Purge(t.blobs, u))
  {
    assert PurgeFirst(t, u, 1) == t.(checkpoints := Purge(t.checkpoints, u));
    assert PurgeFirst(t, u, 2) == t.(checkpoints := Purge(t.checkpoints, u), writes := Purge(t.writes, u));
  }

  /** After the complete purge the thread reads as empty in every table, and purging again changes nothing. */
  lemma {:induction false} CompletePurgeEmptiesThread(t: Tables, u: string)
    ensures var p := PurgeFirst(t, u, |PurgeOrder|);
      && Select(p.checkpoints, u) == [] && Select(p.writes, u) == [] && Select(p.blobs, u) == []
      && PurgeFirst(p, u, |PurgeOrder|) == p
  {
    CompletePurge(t, u);
    var p := PurgeFirst(t, u, |PurgeOrder|);
    CompletePurge(p, u);
    SelectAfterPurge(t.checkpoints, u, u);
    SelectAfterPurge(t.writes, u, u);
    SelectAfterPurge(t.blobs, u, u);
    PurgeIdempotent(t.checkpoints, u);
    PurgeIdempotent(t.writes, u);
    PurgeIdempotent(t.blobs, u);
  }

  /**
   * The database as `MessageRepository` sees it. The pool runs with autocommit on,
   * so each DELETE takes effect as soon as it runs; `journal` records the statements
   * in the order they reached the database.
   */
  class CheckpointDb {
    var checkpoints: seq<Row<CheckpointData>>
    var writes: seq<Row<WriteData>>
    var blobs: seq<Row<BlobData>>
    var journal: seq<Statement>

    constructor (initial: Tables)
      ensures State() == initial && journal == []
    {
      checkpoints, writes, blobs := initial.checkpoints, initial.writes, initial.blobs;
      journal := [];
    }

    function State(): Tables
      reads this
    {
      Tables(checkpoints, writes, blobs)
    }

    /** `get_messages_by_user`: the thread's checkpoint rows, mapped to records. */
    method GetMessagesByUser(userId: string) returns (records: seq<CheckpointRecord>)
      ensures records == ToRecords(Select(checkpoints, userId))
      ensures forall r | r in records :: r.threadId == userId
      ensures forall x | x in checkpoints && x.threadId == userId ::
        CheckpointRecord(x.data.checkpointId, x.threadId, x.data.metadata) in records
    {
      var rows := Select(checkpoints, userId);
      records := ToRecords(rows);
      forall x | x in checkpoints && x.threadId == userId
        ensures CheckpointRecord(x.data.checkpointId, x.threadId, x.data.metadata) in records
      {
        var i :| 0 <= i < |rows| && rows[i] == x;
        assert records[i] == CheckpointRecord(x.data.checkpointId, x.threadId, x.data.metadata);
      }
    }

    /** Runs one `DELETE FROM which WHERE thread_id = userId`. */
    method ExecuteDelete(which: Table, userId: string)
      modifies this
      ensures State() == PurgeTable(old(State()), which, userId)
      ensures journal == old(journal) + [Delete(which, userId)]
    {
      match which {
        case Checkpoints => checkpoints := Purge(checkpoints, userId);
        case CheckpointWrites => writes := Purge(writes, userId);
        case CheckpointBlobs => blobs := Purge(blobs, userId);
      }
      journal := journal + [Delete(which, userId)];
    }

    /**
     * `delete_all_messages`: the three DELETE statements in order, then one commit.
     * `failAt` is the index of the statement at which the connection fails, if any;
     * the statements before it have already taken effect and stay.
     */
    method DeleteAllMessages(userId: string, failAt: Option<nat>) returns (ok: bool)
      modifies this
      ensures ok <==> failAt.None? || failAt.value >= |PurgeOrder|
      ensures ok ==> State() == PurgeFirst(old(State()), userId, |PurgeOrder|)
      ensures ok ==> journal == old(journal) + DeletesOf(PurgeOrder, userId) + [Commit]
      ensures !ok ==> State() == PurgeFirst(old(State()), userId, failAt.value)
      ensures !ok ==> journal == old(journal) + DeletesOf(PurgeOrder[..failAt.value], userId)
    {
      ghost var start, log := State(), journal;
      for i := 0 to |PurgeOrder|
        invariant State() == PurgeFirst(start, userId, i)
        invariant journal == log + DeletesOf(PurgeOrder[..i], userId)
        invariant failAt.Some? ==> failAt.value >= i
      {
        if failAt == Some(i) {
          return false;
        }
        ExecuteDelete(PurgeOrder[i], userId);
        assert PurgeOrder[..i + 1] == PurgeOrder[..i] + [PurgeOrder[i]];
        DeletesOfAppend(PurgeOrder[..i], PurgeOrder[i], userId);
      }
      assert PurgeOrder[..|PurgeOrder|] == PurgeOrder;
      journal := journal + [Commit];
      ok := true;
    }
  }

  /** The DELETE statements for `tables`, in order. */
  function DeletesOf(tables: seq<Table>, u: string): (r: seq<Statement>)
    ensures |r| == |tables|
    ensures forall i | 0 <= i < |tables| :: r[i] == Delete(tables[i], u)
  {
    if tables == [] then [] else [Delete(tables[0], u)] + DeletesOf(tables[1..], u)
  }

  lemma DeletesOfAppend(tables: seq<Table>, t: Table, u: string)
    ensures DeletesOf(tables + [t], u) == DeletesOf(tables, u) + [Delete(t, u)]
  {
  }
}

/**
 * `store_results`: every row gets a content-derived id, computed before the
 * processing metadata is attached, and is inserted with
 * `ON CONFLICT (id) DO NOTHING`; a row whose insert raises is logged and the
 * loop moves on. The table is a map from id to the stored record. Both
 * versions of the pipeline store their rows this way.
 */
module Store {
  import opened Base
  import opened Dicts
  import opened Text
  import opened Json
  import opened Schema
  import opened Oracles

  /** `[str(x) for x in values]` */
  function Rendered(vs: seq<Value>, show: Value -> string): seq<string> {
    if vs == [] then [] else [Render(vs[0], show)] + Rendered(vs[1..], show)
  }

  /** The text the id digests: the row's values, rendered, joined by `"~~"`. */
  function RowText(row: Row, show: Value -> string): string {
    Join("~~", Rendered(Values(row), show))
  }

  /** The row id: the xxh64 hex digest of the row text. */
  function RowId(row: Row, env: Env): string {
    env.hash(RowText(row, env.show))
  }

  /** `{"id": id, **row, "_processing_time": time, "_run_id": runId}` */
  function WithMetadata(row: Row, id: string, time: string, runId: string): Row {
    FromPairs([(Id, Str(id))] + row + [(ProcessingTime, Str(time)), (RunId, Str(runId))])
  }

  /** The rows the pipeline hands to the store: distinct keys, none of them a metadata column. */
  predicate Storable(row: Row) {
    Distinct(Keys(row)) && Id !in Keys(row) && ProcessingTime !in Keys(row) && RunId !in Keys(row)
  }

  /**
   * The stored record lists the id, then the row's own columns in order, then
   * the two metadata columns; its id digests the row alone.
   */
  lemma MetadataLayout(row: Row, id: string, time: string, runId: string)
    requires Storable(row)
    ensures WithMetadata(row, id, time, runId) == [(Id, Str(id))] + row + [(ProcessingTime, Str(time)), (RunId, Str(runId))]
    ensures Keys(WithMetadata(row, id, time, runId)) == [Id] + Keys(row) + [ProcessingTime, RunId]
    ensures Lookup(WithMetadata(row, id, time, runId), Id) == Some(Str(id))
    ensures forall c :: c in Keys(row) ==> Lookup(WithMetadata(row, id, time, runId), c) == Lookup(row, c)
  {
    var head := [(Id, Str(id))];
    var tail := [(ProcessingTime, Str(time)), (RunId, Str(runId))];
    var p := head + row + tail;
    MetadataKeys(row, head, tail);
    FromPairsDistinct(p);
    forall c | c in Keys(row) ensures Lookup(p, c) == Lookup(row, c) {
      LookupAppend(head + row, tail, c);
      LookupAppend(head, row, c);
    }
    LookupAppend(head + row, tail, Id);
    LookupAppend(head, row, Id);
  }

  lemma MetadataKeys(row: Row, head: Row, tail: Row)
    requires Storable(row)
    requires |head| == 1 && head[0].0 == Id
    requires |tail| == 2 && tail[0].0 == ProcessingTime && tail[1].0 == RunId
    ensures Keys(head) == [Id] && Keys(head + row + tail) == [Id] + Keys(row) + [ProcessingTime, RunId]
    ensures Distinct(Keys(head + row + tail))
  {
    KeysAppend(head + row, tail);
    KeysAppend(head, row);
    assert Keys(tail) == [ProcessingTime, RunId] by {
      assert tail[1..][1..] == [];
    }
    var ks := Keys(head + row + tail);
    forall i, j | 0 <= i < j < |ks| ensures ks[i] != ks[j] {
      var n := |row|;
      if 1 <= i && j <= n {
        assert ks[i] == Keys(row)[i - 1] && ks[j] == Keys(row)[j - 1];
      } else if i == 0 && j <= n {
        assert ks[j] == Keys(row)[j - 1];
      } else if 1 <= i <= n {
        assert ks[i] == Keys(row)[i - 1];
      }
    }
  }

  /** The table's rows by id, and how many inserts the clock has seen so far. */
  datatype Table = Table(rows: map<string, Row>, attempts: nat)

  /**
   * One iteration of the loop: the insert is skipped when the database
   * rejects the row (the error is logged) or when the id is already stored
   * (`ON CONFLICT (id) DO NOTHING`). The clock is read once per row.
   */
  function InsertRow(t: Table, row: Row, env: Env): (t': Table)
    ensures t'.attempts == t.attempts + 1
    ensures t'.rows.Keys == t.rows.Keys + if env.rejects(row) then {} else {RowId(row, env)}
    ensures forall id :: id in t.rows ==> t'.rows[id] == t.rows[id]
    ensures RowId(row, env) !in t.rows && !env.rejects(row) ==>
      t'.rows[RowId(row, env)] == WithMetadata(row, RowId(row, env), env.clock(t.attempts), env.runId)
  {
    var id := RowId(row, env);
    var next := t.(attempts := t.attempts + 1);
    if env.rejects(row) || id in t.rows then next
    else next.(rows := t.rows[id := WithMetadata(row, id, env.clock(t.attempts), env.runId)])
  }

  /** The whole loop over `results`, one insert after another. */
  function StoreAll(t: Table, results: seq<Row>, env: Env): Table
    decreases |results|
  {
    if results == [] then t
    else InsertRow(StoreAll(t, results[..|results| - 1], env), results[|results| - 1], env)
  }

  /** The ids of the rows of `results` that the database accepts. */
  function AcceptedIds(results: seq<Row>, env: Env): set<string>
    decreases |results|
  {
    if results == [] then {}
    else
      var last := results[|results| - 1];
      AcceptedIds(results[..|results| - 1], env) + if env.rejects(last) then {} else {RowId(last, env)}
  }

  /** An id is accepted exactly when some row of the batch that the database accepts digests to it. */
  lemma {:induction false} AcceptedIdsMembers(results: seq<Row>, env: Env, id: string)
    ensures id in AcceptedIds(results, env) <==>
      exists i :: 0 <= i < |results| && !env.rejects(results[i]) && id == RowId(results[i], env)
    decreases |results|
  {
    if results != [] {
      var n := |results| - 1;
      var init := results[..n];
      AcceptedIdsMembers(init, env, id);
      if id in AcceptedIds(init, env) {
        var i :| 0 <= i < n && !env.rejects(init[i]) && id == RowId(init[i], env);
        assert init[i] == results[i];
      }
      if exists i :: 0 <= i < |results| && !env.rejects(results[i]) && id == RowId(results[i], env) {
        var i :| 0 <= i < |results| && !env.rejects(results[i]) && id == RowId(results[i], env);
        if i < n {
          assert init[i] == results[i];
        }
      }
    }
  }

  /**
   * Stored records are never overwritten, and the table gains exactly the ids
   * of the rows the database accepts; the clock advances once per row.
   */
  lemma {:induction false} StoreAllEffect(t: Table, results: seq<Row>, env: Env)
    ensures StoreAll(t, results, env).attempts == t.attempts + |results|
    ensures StoreAll(t, results, env).rows.Keys == t.rows.Keys + AcceptedIds(results, env)
    ensures forall id :: id in t.rows ==> StoreAll(t, results, env).rows[id] == t.rows[id]
    decreases |results|
  {
    if results != [] {
      StoreAllEffect(t, results[..|results| - 1], env);
    }
  }

  /** Every row the database accepts ends up in the table, whatever happens to the other rows. */
  lemma StoreAllKeepsGoing(t: Table, results: seq<Row>, env: Env, i: nat)
    requires i < |results| && !env.rejects(results[i])
    ensures RowId(results[i], env) in StoreAll(t, results, env).rows
  {
    StoreAllEffect(t, results, env);
    AcceptedIdsMembers(results, env, RowId(results[i], env));
  }

  /**
   * The record stored for a row that is new to the table and first in the
   * batch with its id carries that row, the id it digests and the clock
   * reading of its own insert.
   */
  lemma StoreAllRecord(t: Table, results: seq<Row>, env: Env, i: nat)
    requires i < |results| && !env.rejects(results[i]) && RowId(results[i], env) !in t.rows
    requires forall j :: 0 <= j < i ==> env.rejects(results[j]) || RowId(results[j], env) != RowId(results[i], env)
    ensures RowId(results[i], env) in StoreAll(t, results, env).rows
    ensures StoreAll(t, results, env).rows[RowId(results[i], env)]
      == WithMetadata(results[i], RowId(results[i], env), env.clock(t.attempts + i), env.runId)
  {
    var upto := results[..i + 1];
    RecordAtInsert(t, results, env, i);
    assert results == upto + results[i + 1..];
    StoreAllAppend(t, upto, results[i + 1..], env);
    StoreAllEffect(StoreAll(t, upto, env), results[i + 1..], env);
  }

  /** Right after its own insert, the first row with a new id is stored with its metadata. */
  lemma RecordAtInsert(t: Table, results: seq<Row>, env: Env, i: nat)
    requires i < |results| && !env.rejects(results[i]) && RowId(results[i], env) !in t.rows
    requires forall j :: 0 <= j < i ==> env.rejects(results[j]) || RowId(results[j], env) != RowId(results[i], env)
    ensures RowId(results[i], env) in StoreAll(t, results[..i + 1], env).rows
    ensures StoreAll(t, results[..i + 1], env).rows[RowId(results[i], env)]
      == WithMetadata(results[i], RowId(results[i], env), env.clock(t.attempts + i), env.runId)
  {
    var row := results[i];
    var before := results[..i];
    var upto := results[..i + 1];
    assert upto[..i] == before && upto[i] == row;
    FirstInPrefix(results, env, i);
    NotYetStored(t, before, env, RowId(row, env));
    assert StoreAll(t, upto, env) == InsertRow(StoreAll(t, before, env), row, env);
  }

  /** Storing a batch in two parts is storing it in one go. */
  lemma {:induction false} StoreAllAppend(t: Table, a: seq<Row>, b: seq<Row>, env: Env)
    ensures StoreAll(t, a + b, env) == StoreAll(StoreAll(t, a, env), b, env)
    decreases |b|
  {
    if b == [] {
      assert a + b == a;
    } else {
      var n := |b| - 1;
      assert (a + b)[..|a + b| - 1] == a + b[..n];
      assert (a + b)[|a + b| - 1] == b[n];
      StoreAllAppend(t, a, b[..n], env);
    }
  }

  /** The first-with-its-id condition carries over to the rows before it. */
  lemma FirstInPrefix(results: seq<Row>, env: Env, i: nat)
    requires i < |results|
    requires forall j :: 0 <= j < i ==> env.rejects(results[j]) || RowId(results[j], env) != RowId(results[i], env)
    ensures forall j :: 0 <= j < i ==> env.rejects(results[..i][j]) || RowId(results[..i][j], env) != RowId(results[i], env)
  {
    forall j | 0 <= j < i ensures env.rejects(results[..i][j]) || RowId(results[..i][j], env) != RowId(results[i], env) {
      assert results[..i][j] == results[j];
    }
  }

  /** An id that no accepted row of the batch digests to is still missing after it. */
  lemma NotYetStored(t: Table, init: seq<Row>, env: Env, id: string)
    requires id !in t.rows
    requires forall j :: 0 <= j < |init| ==> env.rejects(init[j]) || RowId(init[j], env) != id
    ensures id !in StoreAll(t, init, env).rows && StoreAll(t, init, env).attempts == t.attempts + |init|
  {
    StoreAllEffect(t, init, env);
    AcceptedIdsMembers(init, env, id);
  }

  /** After a store, every row of the batch is either in the table or rejected. */
  predicate Settled(t: Table, results: seq<Row>, env: Env) {
    forall i :: 0 <= i < |results| ==> env.rejects(results[i]) || RowId(results[i], env) in t.rows
  }

  /** Storing rows that are all settled changes no stored record. */
  lemma {:induction false} StoreSettled(t: Table, results: seq<Row>, env: Env)
    requires Settled(t, results, env)
    ensures StoreAll(t, results, env).rows == t.rows
    decreases |results|
  {
    if results != [] {
      var n := |results| - 1;
      assert Settled(t, results[..n], env) by {
        forall i | 0 <= i < n ensures env.rejects(results[..n][i]) || RowId(results[..n][i], env) in t.rows {
          assert results[..n][i] == results[i];
        }
      }
      StoreSettled(t, results[..n], env);
    }
  }

  /** `ON CONFLICT (id) DO NOTHING` makes a second store of the same rows change nothing. */
  lemma StoreTwice(t: Table, results: seq<Row>, env: Env)
    ensures StoreAll(StoreAll(t, results, env), results, env).rows == StoreAll(t, results, env).rows
  {
    forall i | 0 <= i < |results| && !env.rejects(results[i])
      ensures RowId(results[i], env) in StoreAll(t, results, env).rows
    {
      StoreAllKeepsGoing(t, results, env, i);
    }
    StoreSettled(StoreAll(t, results, env), results, env);
  }

  /** The records added by a store keep any column every row of the batch holds, with its value. */
  lemma {:induction false} StoreAllCarries(t: Table, results: seq<Row>, env: Env, c: Column, v: Value)
    requires forall i :: 0 <= i < |results| ==> Storable(results[i]) && Lookup(results[i], c) == Some(v)
    ensures forall id :: id in StoreAll(t, results, env).rows && id !in t.rows ==>
      Lookup(StoreAll(t, results, env).rows[id], c) == Some(v)
    decreases |results|
  {
    if results != [] {
      var n := |results| - 1;
      var before := StoreAll(t, results[..n], env);
      assert forall i :: 0 <= i < n ==> results[..n][i] == results[i];
      StoreAllCarries(t, results[..n], env, c, v);
      StoreAllEffect(t, results[..n], env);
      var row := results[n];
      var id := RowId(row, env);
      if id !in before.rows && !env.rejects(row) {
        MetadataLayout(row, id, env.clock(before.attempts), env.runId);
      }
    }
  }

  /** The table a run of the pipeline writes to. */
  class Database {
    var rows: map<string, Row>
    var attempts: nat

    constructor ()
      ensures rows == map[] && attempts == 0
    {
      rows := map[];
      attempts := 0;
    }

    function State(): Table
      reads this
    {
      Table(rows, attempts)
    }

    /** One `cursor.execute` inside its try block. */
    method Insert(row: Row, env: Env)
      modifies this
      ensures State() == InsertRow(old(State()), row, env)
    {
      var id := RowId(row, env);
      var data := WithMetadata(row, id, env.clock(attempts), env.runId);
      if !env.rejects(row) && id !in rows {
        rows := rows[id := data];
      }
      attempts := attempts + 1;
    }

    /** `store_results(results, table, conn)` */
    method StoreResults(results: seq<Row>, env: Env)
      modifies this
      ensures State() == StoreAll(old(State()), results, env)
    {
      var i := 0;
      while i < |results|
        invariant 0 <= i <= |results|
        invariant State() == StoreAll(old(State()), results[..i], env)
      {
        assert results[..i + 1][..i] == results[..i];
        Insert(results[i], env);
        i := i + 1;
      }
      assert results[..i] == results;
    }
  }
}

/** Where published bytes come from, and why resending a chunk is harmless. */
module WorkerProvenance {
  import opened Wrappers
  import opened NativeJobs
  import opened NativeJobInvariants
  import opened NativeJobRuns
  import opened NativeJobSafety
  import opened WorkerStaging
  import opened WorkerInvariants
  import opened WorkerRuns
  import opened WorkerSafety

  // ---------- resending ----------

  function KeyOf(call: Call, p: Part): Key { Key(call.grant.ticket.id, call.grant.ticket.token, p.index) }

  ghost predicate Holds(w: World, k: Key, p: Part) {
    k in w.rows && Describes(p, w.rows[k]) && ChunkAt(w.rows[k].chunks, p.offset) == Some(p.bytes)
  }

  lemma RowExpiresWithGrant(w: World, call: Call, k: Key, now: int)
    requires WorldInv(w, now) && k in w.rows && k.job == call.grant.ticket.id && k.token == call.grant.ticket.token
    requires call.grant in w.grants
    ensures w.rows[k].expiresAt == call.grant.expiresAt
  {
    assert Granted(w, k);
  }

  /** An accepted part is stored, and the reply names the next offset. */
  lemma AcceptedIsStored(w: World, call: Call, p: Part, now: int)
    requires Stage(w, call, p, now).1.Ok?
    ensures Stage(w, call, p, now).1 == Ok(p.offset + |p.bytes|)
    ensures Holds(Stage(w, call, p, now).0, KeyOf(call, p), p)
  {
    hide Resolve, StagedBytes, StagedCount;
  }

  /** Resending a stored part while the claim is active changes nothing and repeats the reply;
      sending other bytes for its place is refused and changes nothing either. */
  lemma ResendChangesNothing(w: World, call: Call, p: Part, other: Part, now: int)
    requires WorldInv(w, now) && WellFormed(p) && Holds(w, KeyOf(call, p), p)
    requires Enter(w, call, now).1 == None
    requires other.index == p.index && other.offset == p.offset && other != p && WellFormed(other)
    ensures Stage(w, call, p, now) == (w, Ok(p.offset + |p.bytes|))
    ensures Stage(w, call, other, now) == (w, Err(WORKER_OUTPUT_CONFLICT))
  {
    ActiveChangesNothing(w, call, now);
    RowExpiresWithGrant(w, call, KeyOf(call, p), now);
    hide Enter;
    assert w.rows[KeyOf(call, p) := w.rows[KeyOf(call, p)]] == w.rows;
  }

  // ---------- provenance ----------

  /** Step m of the run accepted the part that became chunk n of this row. */
  ghost predicate Sent(run: WorldRun, m: nat, k: Key, row: Row, n: nat)
    requires n < |row.chunks|
  {
    && m < |run| && run[m].op.StagePart?
    && var (call, p) := (run[m].op.call, run[m].op.p);
       && KeyOf(call, p) == k && Describes(p, row)
       && p.offset == row.chunks[n].offset && p.bytes == row.chunks[n].bytes
       && Stage(WorldAt(run, m), call, p, run[m].at).1.Ok?
  }

  lemma StoredRow(w: World, call: Call, p: Part, now: int, k: Key)
    requires k in Stage(w, call, p, now).0.rows
    ensures var row := Stage(w, call, p, now).0.rows[k];
      || (k in w.rows && row == w.rows[k])
      || (Stage(w, call, p, now).1.Ok? && k == KeyOf(call, p) && Describes(p, row)
          && (k in w.rows ==> Describes(p, w.rows[k]))
          && row.chunks == (if k in w.rows then w.rows[k].chunks else []) + [Chunk(p.offset, p.bytes)])
  {
    hide Resolve, StagedBytes, StagedCount;
  }

  lemma RowsOnlyDrop(w: World, op: WorldOp, now: int, k: Key)
    requires !op.StagePart? && k in WorldStep(w, op, now).rows
    ensures k in w.rows && WorldStep(w, op, now).rows[k] == w.rows[k]
  {
    hide Resolve, Claim, Fail, Finish, Renew, Step, Collect, StagedBytes, StagedCount;
  }

  ghost predicate WasSent(run: WorldRun, i: nat, k: Key, row: Row, n: nat)
    requires n < |row.chunks|
  {
    exists m :: 0 <= m < i && Sent(run, m, k, row, n)
  }

  /** Every staged chunk was accepted at some earlier step, under the token it is stored under. */
  lemma {:induction false} ChunksWereSent(run: WorldRun, i: nat, k: Key, n: nat)
    requires i <= |run| && k in WorldAt(run, i).rows && n < |WorldAt(run, i).rows[k].chunks|
    ensures WasSent(run, i, k, WorldAt(run, i).rows[k], n)
  {
    if i > 0 {
      var w, op, at, row := WorldAt(run, i - 1), run[i - 1].op, run[i - 1].at, WorldAt(run, i).rows[k];
      if op.StagePart? { StoredRow(w, op.call, op.p, at, k); } else { RowsOnlyDrop(w, op, at, k); }
      hide WorldStep, Stage;
      if k in w.rows && n < |w.rows[k].chunks| {
        ChunksWereSent(run, i - 1, k, n);
        var m :| 0 <= m < i - 1 && Sent(run, m, k, w.rows[k], n);
        assert Sent(run, m, k, row, n);
      } else {
        assert Sent(run, i - 1, k, row, n);
      }
    }
  }

  // ---------- publication ----------

  /** The output a fully staged row stands for. */
  ghost predicate IsOutputOf(o: Output, row: Row) {
    && o.filename == row.filename && o.mime == row.mime && o.digest == row.digest == Sha256(o.bytes)
    && |o.bytes| == row.total
    && Tiled(row)
    && forall n :: 0 <= n < |row.chunks| ==> HasChunk(o.bytes, row.chunks[n])
  }

  ghost predicate HasChunk(bytes: Bytes, c: Chunk) {
    c.offset + |c.bytes| <= |bytes| && bytes[c.offset..c.offset + |c.bytes|] == c.bytes
  }

  /** Some staged index below n comes m-th. */
  ghost predicate Placed(rows: map<Key, Row>, job: JobId, token: Token, n: nat, m: nat) {
    exists i :: 0 <= i < n && Key(job, token, i) in rows && StagedCount(rows, job, token, i) == m
  }

  lemma {:induction false} CollectIsRows(w: World, job: JobId, token: Token, n: nat, now: int)
    requires StagedOk(w) && Collect(w.rows, job, token, n, now).Ok?
    ensures var outputs := Collect(w.rows, job, token, n, now).value;
      && |outputs| == StagedCount(w.rows, job, token, n)
      && (forall i :: 0 <= i < n && Key(job, token, i) in w.rows ==>
           StagedCount(w.rows, job, token, i) < |outputs| && IsOutputOf(outputs[StagedCount(w.rows, job, token, i)], w.rows[Key(job, token, i)]))
      && (forall m :: 0 <= m < |outputs| ==> Placed(w.rows, job, token, n, m))
  {
    if n > 0 {
      CollectIsRows(w, job, token, n - 1, now);
      var before, outputs := Collect(w.rows, job, token, n - 1, now).value, Collect(w.rows, job, token, n, now).value;
      var key := Key(job, token, n - 1);
      if key in w.rows {
        var row := w.rows[key];
        ReassembleTiles(row.chunks, row.total);
        assert outputs == before + [OutputOf(row, now).value];
        assert IsOutputOf(outputs[|before|], row);
      }
      forall m | 0 <= m < |outputs| ensures Placed(w.rows, job, token, n, m) {
        if m < |before| { assert Placed(w.rows, job, token, n - 1, m); } else { assert key in w.rows; }
      }
    }
  }

  ghost predicate PublishedFrom(run: WorldRun, i: nat, key: Key, o: Output)
    requires i <= |run|
  {
    && key in WorldAt(run, i).rows
    && IsOutputOf(o, WorldAt(run, i).rows[key])
    && forall n :: 0 <= n < |WorldAt(run, i).rows[key].chunks| ==> WasSent(run, i, key, WorldAt(run, i).rows[key], n)
  }

  /** The job's outputs after a completion are the collected rows of its attempt. */
  lemma PublicationCollects(run: WorldRun, i: nat, id: JobId) returns (outputs: seq<Output>)
    requires i < |run| && Publishes(run, i, id)
    ensures Collect(WorldAt(run, i).rows, id, run[i].op.call.grant.ticket.token, MAX_OUTPUTS, run[i].at) == Ok(outputs)
    ensures id in WorldAt(run, i + 1).table.published && WorldAt(run, i + 1).table.published[id] == outputs
  {
    var w, op, at := WorldAt(run, i), run[i].op, run[i].at;
    CompletionPublishes(w, op.call, op.bound, op.room, at);
    hide Complete, Collect;
    outputs := Collect(w.rows, id, op.call.grant.ticket.token, MAX_OUTPUTS, at).value;
  }

  /** Everything a completed claim publishes, file by file and byte by byte, is the reassembly
      of parts that were accepted earlier in the run under this very token. */
  lemma PublishedUnderOwnToken(run: WorldRun, i: nat, id: JobId, m: nat)
    requires WorldLegal(run) && i < |run| && Publishes(run, i, id)
    requires id in WorldAt(run, i + 1).table.published && m < |WorldAt(run, i + 1).table.published[id]|
    ensures exists index :: PublishedFrom(run, i, Key(id, run[i].op.call.grant.ticket.token, index), WorldAt(run, i + 1).table.published[id][m])
  {
    var w, token := WorldAt(run, i), run[i].op.call.grant.ticket.token;
    var outputs := PublicationCollects(run, i, id);
    WorldReachable(run, i, run[i].at);
    hide Collect, WorldStep, Publishes, Inv, BudgetOk, NamesOk;
    CollectIsRows(w, id, token, MAX_OUTPUTS, run[i].at);
    assert Placed(w.rows, id, token, MAX_OUTPUTS, m);
    var index :| 0 <= index < MAX_OUTPUTS && Key(id, token, index) in w.rows && StagedCount(w.rows, id, token, index) == m;
    var key := Key(id, token, index);
    forall n | 0 <= n < |w.rows[key].chunks| ensures WasSent(run, i, key, w.rows[key], n) {
      ChunksWereSent(run, i, key, n);
    }
    assert PublishedFrom(run, i, key, outputs[m]);
  }
}

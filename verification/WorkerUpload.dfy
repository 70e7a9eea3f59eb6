/** What a worker uploads: its artifacts in 256 KiB parts, and the rows they make. */
module WorkerUpload {
  import opened NativeJobInvariants
  import opened NativeJobs
  import opened Numbers
  import opened WorkerInvariants
  import opened WorkerSafety
  import opened WorkerStaging
  import opened Wrappers
  import WorkerProvenance

  // ---------- acceptable results ----------

  ghost predicate Acceptable(artifacts: seq<Output>) {
    && WithinBudget(artifacts)
    && (forall i :: 0 <= i < |artifacts| ==> Intact(artifacts[i]))
    && (forall i, k :: 0 <= i < k < |artifacts| ==> artifacts[i].filename != artifacts[k].filename)
  }

  lemma {:induction false} PrefixBytes(artifacts: seq<Output>, n: nat)
    requires n <= |artifacts|
    ensures TotalBytes(artifacts[..n]) <= TotalBytes(artifacts)
    decreases |artifacts| - n
  {
    if n < |artifacts| {
      assert artifacts[..n + 1][..n] == artifacts[..n];
      PrefixBytes(artifacts, n + 1);
    } else {
      assert artifacts[..n] == artifacts;
    }
  }

  lemma EmptyTotal()
    ensures TotalBytes([]) == 0
  {}

  lemma OneMore(artifacts: seq<Output>, n: nat)
    requires n < |artifacts|
    ensures TotalBytes(artifacts[..n + 1]) == TotalBytes(artifacts[..n]) + |artifacts[n].bytes| <= TotalBytes(artifacts)
  {
    assert artifacts[..n + 1][..n] == artifacts[..n];
    PrefixBytes(artifacts, n + 1);
  }

  // ---------- what has been uploaded ----------

  /** artifact.bytes.subarray(offset, offset + CHUNK_BYTES) and its description. */
  function PartAt(index: nat, a: Output, offset: nat): Part
    requires offset <= |a.bytes|
  {
    Part(index, a.filename, a.mime, |a.bytes|, a.digest, offset, a.bytes[offset..Min(offset + CHUNK, |a.bytes|)])
  }

  /** The row holds the first `sent` bytes of the artifact. */
  ghost predicate RowHolds(row: Row, a: Output, sent: nat) {
    && row.filename == a.filename && row.mime == a.mime && row.total == |a.bytes| && row.digest == a.digest
    && Tiled(row) && row.received == sent <= |a.bytes|
    && Reassemble(row.chunks) == Some(a.bytes[..sent])
  }

  ghost predicate SlotOk(rows: map<Key, Row>, key: Key, artifacts: seq<Output>, index: nat, sent: nat) {
    if key.index < index && key.index < |artifacts| then key in rows && RowHolds(rows[key], artifacts[key.index], |artifacts[key.index].bytes|)
    else if key.index == index && index < |artifacts| && sent > 0 then key in rows && RowHolds(rows[key], artifacts[index], sent)
    else key !in rows
  }

  /** All artifacts before `index`, the first `sent` bytes of that one, and nothing else. */
  ghost predicate Uploaded(rows: map<Key, Row>, c: Ticket, artifacts: seq<Output>, index: nat, sent: nat) {
    index <= |artifacts| && forall i :: 0 <= i < MAX_OUTPUTS ==> SlotOk(rows, Key(c.id, c.token, i), artifacts, index, sent)
  }

  lemma {:induction false} UploadedBytes(rows: map<Key, Row>, c: Ticket, artifacts: seq<Output>, index: nat, n: nat)
    requires Uploaded(rows, c, artifacts, index, 0) && n <= MAX_OUTPUTS && |artifacts| <= MAX_OUTPUTS
    ensures StagedBytes(rows, c.id, c.token, n) == TotalBytes(artifacts[..Min(n, index)])
    ensures StagedCount(rows, c.id, c.token, n) == Min(n, index)
  {
    if n > 0 {
      UploadedBytes(rows, c, artifacts, index, n - 1);
      assert SlotOk(rows, Key(c.id, c.token, n - 1), artifacts, index, 0);
      if n <= index { assert artifacts[..n][..n - 1] == artifacts[..n - 1]; }
    }
  }

  /** The authority accepts the first part of a new artifact. */
  lemma FirstPartFits(w: World, g: Grant, artifacts: seq<Output>, index: nat)
    requires Acceptable(artifacts) && index < |artifacts| && Uploaded(w.rows, g.ticket, artifacts, index, 0)
    ensures RowFor(w, g, PartAt(index, artifacts[index], 0)) == Ok(NewRow(PartAt(index, artifacts[index], 0), g.expiresAt))
  {
    var c, p := g.ticket, PartAt(index, artifacts[index], 0);
    UploadedBytes(w.rows, c, artifacts, index, MAX_OUTPUTS);
    assert artifacts[..index + 1][..index] == artifacts[..index];
    PrefixBytes(artifacts, index + 1);
    assert SlotOk(w.rows, Key(c.id, c.token, index), artifacts, index, 0);
    forall i | 0 <= i < MAX_OUTPUTS && Key(c.id, c.token, i) in w.rows ensures w.rows[Key(c.id, c.token, i)].filename != p.filename {
      assert SlotOk(w.rows, Key(c.id, c.token, i), artifacts, index, 0);
    }
  }

  lemma NextChunkHolds(row: Row, a: Output, p: Part, index: nat)
    requires RowHolds(row, a, row.received) && row.received < |a.bytes| <= MAX_OUTPUT_BYTES
    requires p == PartAt(index, a, row.received) && index < MAX_OUTPUTS
    ensures WellFormed(p) && ChunkAt(row.chunks, p.offset) == None
    ensures RowHolds(Append(row, p), a, row.received + |p.bytes|)
  {
    var n := |row.chunks|;
    assert row.received == n * CHUNK;
    ChunkAtFinds(row.chunks, p.offset);
    assert p.offset / CHUNK == n;
    AppendTiles(row, p);
    assert (row.chunks + [Chunk(p.offset, p.bytes)])[..n] == row.chunks;
    assert a.bytes[..row.received] + p.bytes == a.bytes[..row.received + |p.bytes|];
  }

  /** The row the next part goes to: a new one for the first part, else the one so far. */
  lemma NextRow(w: World, call: Call, artifacts: seq<Output>, index: nat, sent: nat, now: int)
    requires WorldInv(w, now) && Acceptable(artifacts) && index < |artifacts| && sent < |artifacts[index].bytes|
    requires Uploaded(w.rows, call.grant.ticket, artifacts, index, sent)
    requires call.grant in w.grants && call.grant.expiresAt > now
    ensures var r := RowFor(w, call.grant, PartAt(index, artifacts[index], sent));
      r.Ok? && RowHolds(r.value, artifacts[index], sent) && r.value.expiresAt > now
  {
    var g := call.grant;
    var key := Key(g.ticket.id, g.ticket.token, index);
    assert SlotOk(w.rows, key, artifacts, index, sent);
    OneArtifact(artifacts, index);
    if sent == 0 {
      FirstPartFits(w, g, artifacts, index);
      assert artifacts[index].bytes[..0] == [];
    } else {
      WorkerProvenance.RowExpiresWithGrant(w, call, key, now);
      hide StagedBytes, StagedCount, WorldInv, Acceptable;
    }
  }

  lemma NextAccepted(w: World, call: Call, artifacts: seq<Output>, index: nat, sent: nat, now: int)
    requires WorldInv(w, now) && Acceptable(artifacts) && index < |artifacts| && sent < |artifacts[index].bytes|
    requires Uploaded(w.rows, call.grant.ticket, artifacts, index, sent)
    requires call.grant in w.grants && call.grant.expiresAt > now
    ensures var (p, accepted) := (PartAt(index, artifacts[index], sent), Accept(w, call.grant, PartAt(index, artifacts[index], sent), now));
      WellFormed(p) && accepted.Ok? && RowHolds(accepted.value, artifacts[index], sent + |p.bytes|)
  {
    NextRow(w, call, artifacts, index, sent, now);
    OneArtifact(artifacts, index);
    AtMostEight(artifacts);
    hide WorldInv, Acceptable, Uploaded, RowFor;
    var row := RowFor(w, call.grant, PartAt(index, artifacts[index], sent)).value;
    NextChunkHolds(row, artifacts[index], PartAt(index, artifacts[index], sent), index);
  }

  lemma AtMostEight(artifacts: seq<Output>)
    requires Acceptable(artifacts)
    ensures |artifacts| <= MAX_OUTPUTS
  {}

  lemma StageAccepts(w: World, call: Call, p: Part, now: int)
    requires WellFormed(p) && Enter(w, call, now) == (w, None) && Accept(w, call.grant, p, now).Ok?
    ensures Stage(w, call, p, now) ==
      (w.(rows := w.rows[Key(call.grant.ticket.id, call.grant.ticket.token, p.index) := Accept(w, call.grant, p, now).value]),
       Ok(p.offset + |p.bytes|))
  {
    hide Enter, Accept;
  }

  lemma UploadedOneMore(rows: map<Key, Row>, row: Row, c: Ticket, artifacts: seq<Output>, index: nat, sent: nat, more: nat)
    requires Uploaded(rows, c, artifacts, index, sent) && index < |artifacts| && more > 0
    requires RowHolds(row, artifacts[index], sent + more)
    ensures Uploaded(rows[Key(c.id, c.token, index) := row], c, artifacts, index, sent + more)
  {
    hide RowHolds;
    forall i | 0 <= i < MAX_OUTPUTS
      ensures SlotOk(rows[Key(c.id, c.token, index) := row], Key(c.id, c.token, i), artifacts, index, sent + more)
    {
      assert SlotOk(rows, Key(c.id, c.token, i), artifacts, index, sent);
    }
  }

  /** The reply to the part at `sent` names the offset behind it, and only its row has grown. */
  ghost predicate StagedNext(reply: (World, Result<nat, WorkerError>), w: World, c: Ticket, artifacts: seq<Output>, index: nat, sent: nat)
    requires index < |artifacts| && sent <= |artifacts[index].bytes|
  {
    var n := |PartAt(index, artifacts[index], sent).bytes|;
    && reply.1 == Ok(sent + n) && reply.0.table == w.table && reply.0.grants == w.grants
    && Uploaded(reply.0.rows, c, artifacts, index, sent + n)
  }

  /** One turn of the upload loop, whatever the rest of the store holds. */
  lemma PartAccepted(w: World, call: Call, artifacts: seq<Output>, index: nat, sent: nat, now: int)
    requires WorldInv(w, now) && Acceptable(artifacts) && index < |artifacts| && sent < |artifacts[index].bytes|
    requires Uploaded(w.rows, call.grant.ticket, artifacts, index, sent)
    requires Enter(w, call, now).1 == None
    ensures StagedNext(Stage(w, call, PartAt(index, artifacts[index], sent), now), w, call.grant.ticket, artifacts, index, sent)
  {
    hide Enter, WorldInv, Accept, RowHolds, Uploaded, Stage, WellFormed, Acceptable, LiveClaim, Has;
    var p := PartAt(index, artifacts[index], sent);
    ActiveChangesNothing(w, call, now);
    NextAccepted(w, call, artifacts, index, sent, now);
    StageAccepts(w, call, p, now);
    UploadedOneMore(w.rows, Accept(w, call.grant, p, now).value, call.grant.ticket, artifacts, index, sent, |p.bytes|);
  }

  lemma OneArtifact(artifacts: seq<Output>, index: nat)
    requires Acceptable(artifacts) && index < |artifacts|
    ensures |artifacts[index].bytes| <= MAX_OUTPUT_BYTES && Intact(artifacts[index])
  {
    assert artifacts[..index + 1][..index] == artifacts[..index];
    PrefixBytes(artifacts, index + 1);
  }

  /** A finished artifact is the start of the next. */
  lemma NextArtifact(rows: map<Key, Row>, c: Ticket, artifacts: seq<Output>, index: nat)
    requires Acceptable(artifacts) && index < |artifacts| && Uploaded(rows, c, artifacts, index, |artifacts[index].bytes|)
    ensures Uploaded(rows, c, artifacts, index + 1, 0)
  {
    OneArtifact(artifacts, index);
    forall i | 0 <= i < MAX_OUTPUTS ensures SlotOk(rows, Key(c.id, c.token, i), artifacts, index + 1, 0) {
      assert SlotOk(rows, Key(c.id, c.token, i), artifacts, index, |artifacts[index].bytes|);
    }
  }

  lemma FullRowReturns(w: World, call: Call, key: Key, a: Output, now: int)
    requires WorldInv(w, now) && key in w.rows && key.job == call.grant.ticket.id && key.token == call.grant.ticket.token
    requires RowHolds(w.rows[key], a, |a.bytes|) && Intact(a) && call.grant in w.grants && call.grant.expiresAt > now
    ensures OutputOf(w.rows[key], now) == Ok(a)
  {
    WorkerProvenance.RowExpiresWithGrant(w, call, key, now);
    hide WorldInv, Reassemble, Tiled;
    assert a.bytes[..|a.bytes|] == a.bytes;
  }

  lemma {:induction false} CollectReturns(w: World, call: Call, artifacts: seq<Output>, n: nat, now: int)
    requires WorldInv(w, now) && Acceptable(artifacts) && Uploaded(w.rows, call.grant.ticket, artifacts, |artifacts|, 0)
    requires n <= MAX_OUTPUTS && call.grant in w.grants && call.grant.expiresAt > now
    ensures Collect(w.rows, call.grant.ticket.id, call.grant.ticket.token, n, now) == Ok(artifacts[..Min(n, |artifacts|)])
  {
    hide WorldInv, Acceptable, OutputOf, RowHolds;
    if n > 0 {
      CollectReturns(w, call, artifacts, n - 1, now);
      var key := Key(call.grant.ticket.id, call.grant.ticket.token, n - 1);
      assert SlotOk(w.rows, key, artifacts, |artifacts|, 0);
      if n <= |artifacts| {
        OneArtifact(artifacts, n - 1);
        var a := artifacts[n - 1];
        FullRowReturns(w, call, key, a, now);
        assert artifacts[..n] == artifacts[..n - 1] + [a];
      }
    }
  }

  lemma {:induction false} NothingToObject(outputs: seq<Output>, room: nat)
    requires |outputs| <= room && forall i :: 0 <= i < |outputs| ==> Intact(outputs[i])
    ensures FirstObjection(outputs, room) == None
    decreases |outputs|
  {
    if outputs != [] {
      NothingToObject(outputs[1..], room - 1);
    }
  }

  /** Completing a full upload publishes exactly the artifacts. */
  lemma CompletionReturns(w: World, call: Call, artifacts: seq<Output>, room: nat, now: int)
    requires WorldInv(w, now) && Acceptable(artifacts) && Uploaded(w.rows, call.grant.ticket, artifacts, |artifacts|, 0)
    requires Enter(w, call, now).1 == None && call.authorized && |artifacts| <= room
    ensures Complete(w, call, true, room, now).1 == Ok(true)
    ensures var t := Complete(w, call, true, room, now).0.table;
      call.grant.ticket.id in t.published && t.published[call.grant.ticket.id] == artifacts
  {
    var c := call.grant.ticket;
    ActiveChangesNothing(w, call, now);
    CollectReturns(w, call, artifacts, MAX_OUTPUTS, now);
    UploadedBytes(w.rows, c, artifacts, |artifacts|, MAX_OUTPUTS);
    NothingToObject(artifacts, room);
    assert artifacts[..|artifacts|] == artifacts;
    hide Enter, Collect, StagedBytes, StagedCount, WorldInv;
    assert Objection(Delivery(artifacts, true, true, room)) == None;
  }

  // ---------- rows that stay ----------

  ghost predicate SameAttempt(w: World, after: World, c: Ticket) {
    forall i :: 0 <= i < MAX_OUTPUTS ==> SameRow(w, after, Key(c.id, c.token, i))
  }

  lemma SameUpload(w: World, after: World, c: Ticket, artifacts: seq<Output>, index: nat, sent: nat)
    requires Uploaded(w.rows, c, artifacts, index, sent) && SameAttempt(w, after, c)
    ensures Uploaded(after.rows, c, artifacts, index, sent)
  {
    forall i | 0 <= i < MAX_OUTPUTS ensures SlotOk(after.rows, Key(c.id, c.token, i), artifacts, index, sent) {
      assert SlotOk(w.rows, Key(c.id, c.token, i), artifacts, index, sent);
      assert SameRow(w, after, Key(c.id, c.token, i));
    }
  }

  lemma NothingUploaded(rows: map<Key, Row>, c: Ticket, artifacts: seq<Output>)
    requires Uploaded(rows, c, [], 0, 0)
    ensures Uploaded(rows, c, artifacts, 0, 0)
  {
    forall i | 0 <= i < MAX_OUTPUTS ensures SlotOk(rows, Key(c.id, c.token, i), artifacts, 0, 0) {
      assert SlotOk(rows, Key(c.id, c.token, i), [], 0, 0);
    }
  }
}

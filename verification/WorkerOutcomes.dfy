/** What each endpoint of the authority answers and leaves behind, told on rows and tokens. */
module WorkerOutcomes {
  import opened Wrappers
  import opened Numbers
  import opened NativeJobs
  import opened NativeJobInvariants
  import opened NativeJobOutcomes
  import opened WorkerStaging
  import opened WorkerInvariants

  // ---------- opening a claim ----------

  /** The grant was handed out to this worker, and its ten minutes are not over. */
  predicate Entitled(w: World, call: Call, now: int) {
    call.grant in w.grants && call.grant.worker == call.worker && now < call.grant.expiresAt <= now + 600
  }

  /** The claim that the grant stands for is open, as it was granted, and its owner has access. */
  predicate Standing(w: World, call: Call, now: int) {
    var c := call.grant.ticket;
    && Open(w.table, c, now) && call.authorized
    && w.table.jobs[c.id].kind == c.kind && w.table.jobs[c.id].input == c.input && w.table.jobs[c.id].digest == c.digest
  }

  function Refusal(w: World, call: Call, now: int): Option<WorkerError> {
    if !Entitled(w, call, now) then Some(WORKER_GRANT_INVALID)
    else if !call.scoped then Some(WORKER_SCOPE)
    else if !Standing(w, call, now) then Some(WORKER_LEASE_LOST)
    else None
  }

  /** A call is let through exactly with a valid grant, in scope, for a claim that still stands.
      A refusal touches at most the row of a claim that is held and does not stand. */
  lemma EnterAnswers(w: World, call: Call, now: int)
    ensures var (after, error) := Enter(w, call, now);
      && error == Refusal(w, call, now)
      && after.rows == w.rows && after.grants == w.grants
      && (error != Some(WORKER_LEASE_LOST) ==> after == w)
      && (error == Some(WORKER_LEASE_LOST) ==>
           after.table == w.table
           || (Leased(w.table, call.grant.ticket, now) && Stopped(w.table, after.table, call.grant.ticket, now, ACCESS_CHANGED)))
  {
    ResolveOutcome(w.table, call.grant.ticket, call.authorized, now);
    hide Resolve, Leased, Stopped;
  }

  /** A claim that is let through is renewed. */
  lemma RenewAnswers(w: World, call: Call, now: int)
    ensures var (after, answer) := RemoteRenew(w, call, now);
      && after.rows == w.rows && after.grants == w.grants
      && answer == (if Refusal(w, call, now).Some? then Err(Refusal(w, call, now).value) else Ok(true))
      && (answer.Ok? ==> forall u :: now <= u ==>
           (Leased(after.table, call.grant.ticket, u) <==> u < now + 20 && u < w.table.jobs[call.grant.ticket.id].expiresAt))
  {
    EnterAnswers(w, call, now);
    RenewOutcome(w.table, call.grant.ticket, call.authorized, now);
    hide Enter, Renew, Leased, Stopped;
  }

  /** The job ends, and exactly the rows of the attempt go. */
  lemma FailAnswers(w: World, call: Call, text: string, now: int)
    ensures var ((after, answer), c) := (FailJob(w, call, text, now), call.grant.ticket);
      && answer == (if Refusal(w, call, now).Some? then Err(Refusal(w, call, now).value) else Ok(true))
      && after.grants == w.grants
      && if answer.Err? then after.rows == w.rows
         else
           && Stopped(w.table, after.table, c, now, Reported(text))
           && (forall k :: k in after.rows <==> k in w.rows && !(k.job == c.id && k.token == c.token))
           && forall k :: k in after.rows ==> after.rows[k] == w.rows[k]
  {
    EnterAnswers(w, call, now);
    FailOutcome(w.table, call.grant.ticket, text, now);
    hide Enter, Fail, Stopped;
  }

  // ---------- a new claim ----------

  /** Some lease that is not to be cancelled stands behind the staged output. */
  predicate Backed(t: Table, k: Key, now: int) {
    && k.job in t.jobs && t.jobs[k.job].state == Running && t.jobs[k.job].token == Some(k.token)
    && now < t.jobs[k.job].claimUntil && now < t.jobs[k.job].expiresAt && !t.jobs[k.job].cancelRequested
  }

  /** A worker asks for kinds it is registered for. What is staged without a lease behind it
      goes first; then the queue gives a job or none; a job whose input cannot be served ends. */
  lemma ClaimAnswers(w: World, r: RemoteRequest, now: int)
    ensures var (after, answer) := RemoteClaim(w, r, now);
      if r.kinds == {} then after == w && answer == Err(WORKER_REQUEST_INVALID)
      else if exists k :: k in r.kinds && k !in r.registered then after == w && answer == Err(WORKER_SCOPE)
      else
        && (forall k :: k in after.rows <==> k in w.rows && now < w.rows[k].expiresAt && Backed(w.table, k, now))
        && (forall k :: k in after.rows ==> after.rows[k] == w.rows[k])
        && var (table, ticket) := Claim(w.table, ClaimRequest(Remote(r.projects, r.kinds), r.token, r.live), now);
           if ticket.None? then after.table == table && after.grants == w.grants && answer == Ok(None)
           else if !r.inputOk then
             after.table == Fail(table, ticket.value, "JOB_INPUT_INVALID", now) && after.grants == w.grants && answer == Ok(None)
           else
             && after.table == table && answer == Ok(Some(Grant(r.worker, ticket.value, now + 600)))
             && after.grants == w.grants + {answer.value.value}
  {
    hide Claim, Fail;
    forall k ensures Backed(w.table, k, now) <==> LiveClaim(w.table, k.job, k.token, now) {}
    hide LiveClaim, Backed;
  }

  // ---------- staging ----------

  /** A piece on a chunk boundary of an output of at most 32 MiB, whole or the last. */
  predicate Proper(p: Part) {
    && p.index < 8 && 1 <= p.total <= 33554432 && 0 < |p.bytes| <= 262144 && p.offset % 262144 == 0
    && p.offset + |p.bytes| <= p.total && (|p.bytes| < 262144 ==> p.offset + |p.bytes| == p.total)
  }

  predicate SameOutput(p: Part, row: Row) {
    row.filename == p.filename && row.mime == p.mime && row.total == p.total && row.digest == p.digest
  }

  predicate Attempt(k: Key, c: Ticket) {
    k.job == c.id && k.token == c.token
  }

  lemma BytesStaged(w: World, c: Ticket, n: nat)
    ensures StagedBytes(w.rows, c.id, c.token, n) ==
      if n == 0 then 0
      else StagedBytes(w.rows, c.id, c.token, n - 1) + if Key(c.id, c.token, n - 1) in w.rows then w.rows[Key(c.id, c.token, n - 1)].total else 0
  {
  }

  lemma {:induction false} CountStaged(w: World, c: Ticket, n: nat)
    ensures StagedCount(w.rows, c.id, c.token, n) <= n
    ensures StagedCount(w.rows, c.id, c.token, n) == 0 <==> forall i :: 0 <= i < n ==> Key(c.id, c.token, i) !in w.rows
    ensures StagedCount(w.rows, c.id, c.token, n) == n <==> forall i :: 0 <= i < n ==> Key(c.id, c.token, i) in w.rows
  {
    if n > 0 { CountStaged(w, c, n - 1); }
  }

  lemma ProperMeans(p: Part)
    ensures WellFormed(p) <==> Proper(p)
  {
  }

  lemma StageMeans(w: World, call: Call, p: Part, now: int)
    requires Proper(p) && Refusal(w, call, now) == None
    ensures var key := Key(call.grant.ticket.id, call.grant.ticket.token, p.index);
      Stage(w, call, p, now) ==
        match Accept(w, call.grant, p, now)
        case Err(e) => (w, Err(e))
        case Ok(row) => (w.(rows := w.rows[key := row]), Ok(p.offset + |p.bytes|))
  {
    hide Enter, Accept, Refusal, Proper, WellFormed;
    EnterAnswers(w, call, now);
    ProperMeans(p);
  }

  lemma OneIsFree(w: World, c: Ticket, p: Part)
    requires Proper(p) && Key(c.id, c.token, p.index) !in w.rows
    ensures StagedCount(w.rows, c.id, c.token, 8) < 8
  {
    CountStaged(w, c, 8);
    hide StagedCount;
  }

  /** The first part of an output opens its row: there must be room for the whole of it, and no
      other output of the attempt by its name. */
  lemma FirstPartAnswers(w: World, call: Call, p: Part, now: int)
    requires WorldInv(w, now) && Proper(p) && Refusal(w, call, now) == None
    requires Key(call.grant.ticket.id, call.grant.ticket.token, p.index) !in w.rows
    ensures var (c, (after, answer)) := (call.grant.ticket, Stage(w, call, p, now));
      var key := Key(c.id, c.token, p.index);
      if StagedBytes(w.rows, c.id, c.token, 8) + p.total > 33554432 then after == w && answer == Err(WORKER_OUTPUT_LIMIT)
      else if p.offset > 0 || exists k :: k in w.rows && Attempt(k, c) && w.rows[k].filename == p.filename then
        after == w && answer == Err(WORKER_OUTPUT_CONFLICT)
      else
        && answer == Ok(|p.bytes|)
        && after == w.(rows := w.rows[key := Row(p.filename, p.mime, p.total, p.digest, |p.bytes|, call.grant.expiresAt, [Chunk(0, p.bytes)])])
  {
    hide Stage, StagedCount, StagedBytes, WorldInv, NameTaken, Proper, Standing;
    StageMeans(w, call, p, now);
    OneIsFree(w, call.grant.ticket, p);
    NameMeans(w, call.grant.ticket, p.filename, now);
    assert [] + [Chunk(p.offset, p.bytes)] == [Chunk(p.offset, p.bytes)];
  }

  lemma NameMeans(w: World, c: Ticket, filename: string, now: int)
    requires WorldInv(w, now)
    ensures NameTaken(w.rows, c.id, c.token, filename) <==> exists k :: k in w.rows && Attempt(k, c) && w.rows[k].filename == filename
  {
    if k :| k in w.rows && Attempt(k, c) && w.rows[k].filename == filename {
      assert k == Key(c.id, c.token, k.index) && k.index < MAX_OUTPUTS;
    }
    hide Inv, GrantsOk, BudgetOk, NamesOk, Tiled, Granted;
  }

  lemma NextChunk(row: Row, p: Part)
    requires Tiled(row) && Proper(p) && SameOutput(p, row)
    ensures (exists i :: 0 <= i < |row.chunks| && row.chunks[i].offset == p.offset) <==> ChunkAt(row.chunks, p.offset).Some?
    ensures forall i :: 0 <= i < |row.chunks| && row.chunks[i].offset == p.offset ==> ChunkAt(row.chunks, p.offset) == Some(row.chunks[i].bytes)
  {
    ChunkAtFinds(row.chunks, p.offset);
    hide ChunkAt;
    if ChunkAt(row.chunks, p.offset).Some? { assert row.chunks[p.offset / CHUNK].offset == p.offset; }
    forall i | 0 <= i < |row.chunks| && row.chunks[i].offset == p.offset ensures p.offset / CHUNK == i {}
  }

  predicate Repeats(row: Row, p: Part) {
    exists i :: 0 <= i < |row.chunks| && row.chunks[i].offset == p.offset
  }

  /** What a part does to a row that is there. */
  lemma AcceptAgain(w: World, g: Grant, p: Part, now: int)
    requires var k := Key(g.ticket.id, g.ticket.token, p.index); k in w.rows && Tiled(w.rows[k]) && Proper(p)
    ensures var (row, r) := (w.rows[Key(g.ticket.id, g.ticket.token, p.index)], Accept(w, g, p, now));
      if !SameOutput(p, row) || row.expiresAt <= now then r == Err(WORKER_OUTPUT_CONFLICT)
      else if Repeats(row, p) then
        forall i :: 0 <= i < |row.chunks| && row.chunks[i].offset == p.offset ==>
          r == if row.chunks[i].bytes == p.bytes then Ok(row) else Err(WORKER_OUTPUT_CONFLICT)
      else if p.offset != row.received then r == Err(WORKER_OUTPUT_CONFLICT)
      else r == Ok(row.(chunks := row.chunks + [Chunk(p.offset, p.bytes)], received := p.offset + |p.bytes|))
  {
    hide Tiled, ChunkAt, Proper;
    var row := w.rows[Key(g.ticket.id, g.ticket.token, p.index)];
    if SameOutput(p, row) { NextChunk(row, p); }
  }

  /** A further part must be of the same output. It repeats a chunk that is there, or follows
      the last one. */
  lemma NextPartAnswers(w: World, call: Call, p: Part, now: int)
    requires WorldInv(w, now) && Proper(p) && Refusal(w, call, now) == None
    requires Key(call.grant.ticket.id, call.grant.ticket.token, p.index) in w.rows
    ensures var (c, (after, answer)) := (call.grant.ticket, Stage(w, call, p, now));
      var key := Key(c.id, c.token, p.index);
      var row := w.rows[key];
      if !SameOutput(p, row) || row.expiresAt <= now then after == w && answer == Err(WORKER_OUTPUT_CONFLICT)
      else if Repeats(row, p) then
        after == w && forall i :: 0 <= i < |row.chunks| && row.chunks[i].offset == p.offset ==>
          answer == if row.chunks[i].bytes == p.bytes then Ok(p.offset + |p.bytes|) else Err(WORKER_OUTPUT_CONFLICT)
      else if p.offset != row.received then after == w && answer == Err(WORKER_OUTPUT_CONFLICT)
      else
        && answer == Ok(p.offset + |p.bytes|)
        && after == w.(rows := w.rows[key := row.(chunks := row.chunks + [Chunk(p.offset, p.bytes)], received := p.offset + |p.bytes|)])
  {
    hide Stage, Accept, WorldInv, Tiled, Proper, Refusal, SameOutput;
    var key := Key(call.grant.ticket.id, call.grant.ticket.token, p.index);
    RowTiles(w, key, now);
    AcceptAgain(w, call.grant, p, now);
    StageMeans(w, call, p, now);
    assert w.rows[key := w.rows[key]] == w.rows;
  }

  lemma RowTiles(w: World, k: Key, now: int)
    requires WorldInv(w, now) && k in w.rows
    ensures Tiled(w.rows[k])
  {
  }

  /** A part that is improper, or comes without a standing claim, stages nothing. */
  lemma RefusedPartAnswers(w: World, call: Call, p: Part, now: int)
    requires !Proper(p) || Refusal(w, call, now).Some?
    ensures var (after, answer) := Stage(w, call, p, now);
      && after.rows == w.rows && after.grants == w.grants
      && answer == Err(if !Proper(p) then WORKER_REQUEST_INVALID else Refusal(w, call, now).value)
      && (!Proper(p) ==> after == w)
  {
    EnterAnswers(w, call, now);
    ProperMeans(p);
    hide Enter, WellFormed, Proper;
  }

  // ---------- completion ----------

  /** The bytes of the chunks, put together. */
  function Whole(chunks: seq<Chunk>): Bytes {
    if chunks == [] then [] else Whole(chunks[..|chunks| - 1]) + chunks[|chunks| - 1].bytes
  }

  predicate Finished(row: Row, now: int) {
    now < row.expiresAt && row.received == row.total && Sha256(Whole(row.chunks)) == row.digest
  }

  lemma {:induction false} ReassembledIsWhole(chunks: seq<Chunk>)
    ensures Reassemble(chunks).Some? ==> Reassemble(chunks).value == Whole(chunks)
    decreases |chunks|
  {
    if chunks != [] { ReassembledIsWhole(chunks[..|chunks| - 1]); }
  }

  /** Chunk i begins where the chunks before it end, and is of a proper size. */
  predicate Follows(chunks: seq<Chunk>, i: nat)
    requires i < |chunks|
  {
    chunks[i].offset == |Whole(chunks[..i])| && 0 < |chunks[i].bytes| <= 262144
  }

  /** Chunks can be put together exactly if each follows the ones before it. */
  lemma {:induction false} ReassembledIff(chunks: seq<Chunk>)
    ensures Reassemble(chunks).Some? <==> forall i :: 0 <= i < |chunks| ==> Follows(chunks, i)
    decreases |chunks|
  {
    if chunks != [] {
      var before := chunks[..|chunks| - 1];
      ReassembledIff(before);
      ReassembledIsWhole(before);
      forall i | 0 <= i < |before| ensures Follows(before, i) <==> Follows(chunks, i) { assert before[..i] == chunks[..i]; }
      assert Reassemble(chunks).Some? <==> Reassemble(before).Some? && Follows(chunks, |chunks| - 1);
      hide Follows, Reassemble, Whole;
    }
  }

  /** A staged output can be delivered exactly when it is finished. */
  lemma OutputMeans(row: Row, now: int)
    requires Tiled(row)
    ensures OutputOf(row, now) ==
      if Finished(row, now) then Ok(Output(row.filename, row.mime, Whole(row.chunks), row.digest))
      else if row.expiresAt <= now || row.received < row.total then Err(WORKER_OUTPUT_CONFLICT)
      else Err(WORKER_OUTPUT_INVALID)
  {
    ReassembleTiles(row.chunks, row.total);
    ReassembledIsWhole(row.chunks);
    hide Reassemble, Whole;
  }

  /** The outputs of the attempt at indices below n, in order. */
  function Outputs(rows: map<Key, Row>, c: Ticket, n: nat): seq<Output> {
    if n == 0 then []
    else
      Outputs(rows, c, n - 1)
      + var k := Key(c.id, c.token, n - 1);
        if k in rows then [Output(rows[k].filename, rows[k].mime, Whole(rows[k].chunks), rows[k].digest)] else []
  }

  /** Output i is the first that is not finished. */
  predicate FirstUnfinished(rows: map<Key, Row>, c: Ticket, i: nat, now: int) {
    && Key(c.id, c.token, i) in rows && !Finished(rows[Key(c.id, c.token, i)], now)
    && forall m: nat :: m < i && Key(c.id, c.token, m) in rows ==> Finished(rows[Key(c.id, c.token, m)], now)
  }

  lemma {:induction false} CollectMeans(w: World, c: Ticket, n: nat, now: int)
    requires forall k :: k in w.rows ==> Tiled(w.rows[k])
    ensures var r := Collect(w.rows, c.id, c.token, n, now);
      && (r.Ok? <==> forall i: nat :: i < n && Key(c.id, c.token, i) in w.rows ==> Finished(w.rows[Key(c.id, c.token, i)], now))
      && (r.Ok? ==> r.value == Outputs(w.rows, c, n))
      && (r.Err? ==> exists i: nat ::
            && i < n && FirstUnfinished(w.rows, c, i, now)
            && var row := w.rows[Key(c.id, c.token, i)];
               r.error == if row.expiresAt <= now || row.received < row.total then WORKER_OUTPUT_CONFLICT else WORKER_OUTPUT_INVALID)
  {
    hide Tiled, Finished, OutputOf, Whole;
    if n > 0 {
      CollectMeans(w, c, n - 1, now);
      var key := Key(c.id, c.token, n - 1);
      if key in w.rows {
        OutputMeans(w.rows[key], now);
      } else {
        assert Outputs(w.rows, c, n) == Outputs(w.rows, c, n - 1) + [];
      }
      if Collect(w.rows, c.id, c.token, n - 1, now).Ok? && Collect(w.rows, c.id, c.token, n, now).Err? {
        assert FirstUnfinished(w.rows, c, n - 1, now);
      }
    }
  }

  lemma FirstFault(w: World, c: Ticket, i: nat, now: int)
    requires FirstUnfinished(w.rows, c, i, now)
    ensures !Finished(w.rows[Key(c.id, c.token, i)], now)
  {
  }

  lemma StagedTiles(w: World, now: int)
    requires WorldInv(w, now)
    ensures (forall k :: k in w.rows ==> Tiled(w.rows[k]) && k.index < 8)
  {
  }

  lemma BudgetHolds(w: World, c: Ticket, now: int)
    requires WorldInv(w, now)
    ensures StagedBytes(w.rows, c.id, c.token, MAX_OUTPUTS) <= MAX_OUTPUT_BYTES
  {
  }

  /** Nothing is staged for the attempt. */
  predicate NothingStaged(w: World, c: Ticket) {
    forall k :: k in w.rows ==> !Attempt(k, c)
  }

  lemma NothingMeans(w: World, c: Ticket, now: int)
    requires WorldInv(w, now)
    ensures StagedCount(w.rows, c.id, c.token, MAX_OUTPUTS) == 0 <==> NothingStaged(w, c)
  {
    CountStaged(w, c, MAX_OUTPUTS);
    StagedTiles(w, now);
    hide WorldInv, StagedCount, Tiled;
    if NothingStaged(w, c) {
      forall i | 0 <= i < MAX_OUTPUTS ensures Key(c.id, c.token, i) !in w.rows { assert Attempt(Key(c.id, c.token, i), c); }
    } else {
      var k :| k in w.rows && Attempt(k, c);
      assert k == Key(c.id, c.token, k.index);
    }
  }

  ghost predicate Fault(w: World, c: Ticket, now: int, error: WorkerError) {
    exists i: nat :: i < 8 && FirstUnfinished(w.rows, c, i, now)
      && error == if w.rows[Key(c.id, c.token, i)].expiresAt <= now || w.rows[Key(c.id, c.token, i)].received < w.rows[Key(c.id, c.token, i)].total
                  then WORKER_OUTPUT_CONFLICT else WORKER_OUTPUT_INVALID
  }

  /** Every staged output of the attempt is finished. */
  predicate AllFinished(w: World, c: Ticket, now: int) {
    forall i: nat :: i < 8 && Key(c.id, c.token, i) in w.rows ==> Finished(w.rows[Key(c.id, c.token, i)], now)
  }

  lemma CollectsAll(w: World, c: Ticket, now: int)
    requires WorldInv(w, now)
    ensures var r := Collect(w.rows, c.id, c.token, MAX_OUTPUTS, now);
      if AllFinished(w, c, now) then r == Ok(Outputs(w.rows, c, 8)) else r.Err? && Fault(w, c, now, r.error)
  {
    StagedTiles(w, now);
    CollectMeans(w, c, MAX_OUTPUTS, now);
    hide WorldInv, Collect, Outputs, Finished, Tiled;
  }

  /** What a completion of a standing claim that names its own source comes to: an error for the
      first output that is not finished, or a refused delivery, with nothing changed; or the
      finished outputs published, in order, and the rows of the attempt gone. */
  lemma CompleteAnswers(w: World, call: Call, bound: bool, room: nat, now: int)
    requires WorldInv(w, now)
    ensures var ((after, answer), c) := (Complete(w, call, bound, room, now), call.grant.ticket);
      var delivery := Delivery(Outputs(w.rows, c, 8), true, true, room);
      && after.grants == w.grants
      && if Refusal(w, call, now).Some? then after.rows == w.rows && answer == Err(Refusal(w, call, now).value)
         else if !bound then after == w && answer == Err(WORKER_OUTPUT_INVALID)
         else if NothingStaged(w, c) then after == w && answer == Err(WORKER_OUTPUT_LIMIT)
         else if !AllFinished(w, c, now) then after == w && answer.Err? && Fault(w, c, now, answer.error)
         else if !Deliverable(delivery) then after == w && answer.Err? && answer.error.JobError?
         else
           && answer == Ok(true) && after.table.published == w.table.published[c.id := Outputs(w.rows, c, 8)]
           && c.id in after.table.jobs && after.table.jobs[c.id].state == Succeeded
           && (forall k :: k in after.rows <==> k in w.rows && !Attempt(k, c))
           && forall k :: k in after.rows ==> after.rows[k] == w.rows[k]
  {
    hide Enter, Collect, Finish, WorldInv, StagedCount, StagedBytes, Outputs, NothingStaged, AllFinished, Fault, Deliverable, Stopped, OnlyRow;
    var c := call.grant.ticket;
    EnterAnswers(w, call, now);
    NothingMeans(w, c, now);
    BudgetHolds(w, c, now);
    CollectsAll(w, c, now);
    FinishOutcome(w.table, c, Delivery(Outputs(w.rows, c, 8), true, call.authorized, room), now);
  }
}

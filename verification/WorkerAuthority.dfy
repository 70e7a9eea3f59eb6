/** The authority's endpoints as methods on stored rows, and the worker's upload loop
    driving them. */
module WorkerAuthority {
  import opened Wrappers
  import opened NativeJobs
  import opened NativeJobStore
  import opened WorkerStaging
  import opened WorkerInvariants

  class Authority {
    const store: JobStore
    var rows: map<Key, Row>
    var grants: set<Grant>

    ghost function Model(): World
      reads this, store
    {
      World(store.Model(), rows, grants)
    }

    ghost predicate Valid()
      reads this, store
    {
      store.Valid() && WorldInv(Model(), store.clock)
    }

    constructor (store: JobStore)
      requires store.Valid() && store.Model() == EMPTY
      ensures Valid() && this.store == store && Model() == World(EMPTY, map[], {})
    {
      this.store := store;
      rows, grants := map[], {};
      new;
      forall job, token ensures StagedBytes(rows, job, token, MAX_OUTPUTS) <= MAX_OUTPUT_BYTES {
        EmptyBudget(job, token, MAX_OUTPUTS);
      }
    }

    ghost function Later(now: int): (later: int)
      requires Valid() && store.clock <= now
      reads this, store
      ensures later == now && WorldInv(Model(), later)
    {
      NativeJobInvariants.InvLater(store.Model(), store.clock, now);
      now
    }

    method WithClaim(call: Call, now: int) returns (error: Option<WorkerError>)
      requires Valid() && store.clock <= now
      modifies this, store
      ensures Valid() && old(store.clock) <= store.clock <= now && (error.None? ==> store.clock == now)
      ensures (Model(), error) == Enter(old(Model()), call, now)
    {
      hide WorldInv;
      EnterKeeps(Model(), call, Later(now));
      if call.grant !in grants || call.grant.worker != call.worker || call.grant.expiresAt <= now
         || call.grant.expiresAt > now + GRANT_SECONDS { return Some(WORKER_GRANT_INVALID); }
      if !call.scoped { return Some(WORKER_SCOPE); }
      var active := store.Resolve(call.grant.ticket, call.authorized, now);
      error := if active then None else Some(WORKER_LEASE_LOST);
    }

    method StageOutput(call: Call, p: Part, now: int) returns (reply: Result<nat, WorkerError>)
      requires Valid() && store.clock <= now
      modifies this, store
      ensures Valid() && old(store.clock) <= store.clock <= now
      ensures (Model(), reply) == Stage(old(Model()), call, p, now)
    {
      hide WorldInv, StagedBytes, StagedCount, NativeJobInvariants.Inv;
      StageKeeps(Model(), call, p, Later(now));
      if !WellFormed(p) { return Err(WORKER_REQUEST_INVALID); }
      var error := WithClaim(call, now);
      if error.Some? { return Err(error.value); }
      var saved := rows;
      var key := Key(call.grant.ticket.id, call.grant.ticket.token, p.index);
      if key !in rows {
        var count, bytes := CountStaged(key.job, key.token);
        if count >= MAX_OUTPUTS || bytes + p.total > MAX_OUTPUT_BYTES { return Err(WORKER_OUTPUT_LIMIT); }
        if p.offset != 0 || NameTaken(rows, key.job, key.token, p.filename) { return Err(WORKER_OUTPUT_CONFLICT); }
        rows := rows[key := NewRow(p, call.grant.expiresAt)];
      }
      var row := rows[key];
      if row.filename != p.filename || row.mime != p.mime || row.total != p.total || row.digest != p.digest || row.expiresAt <= now {
        rows := saved;
        return Err(WORKER_OUTPUT_CONFLICT);
      }
      var existing := FindChunk(row.chunks, p.offset);
      if existing.Some? {
        if existing.value != p.bytes {
          rows := saved;
          return Err(WORKER_OUTPUT_CONFLICT);
        }
        assert rows == saved[key := row];
        return Ok(p.offset + |p.bytes|);
      }
      if p.offset != row.received {
        rows := saved;
        return Err(WORKER_OUTPUT_CONFLICT);
      }
      rows := rows[key := row.(chunks := row.chunks + [Chunk(p.offset, p.bytes)], received := p.offset + |p.bytes|)];
      assert rows == saved[key := Append(row, p)];
      reply := Ok(p.offset + |p.bytes|);
    }

    method CountStaged(job: JobId, token: Token) returns (count: nat, bytes: nat)
      ensures count == StagedCount(rows, job, token, MAX_OUTPUTS)
      ensures bytes == StagedBytes(rows, job, token, MAX_OUTPUTS)
    {
      count, bytes := 0, 0;
      var i := 0;
      while i < MAX_OUTPUTS
        invariant 0 <= i <= MAX_OUTPUTS
        invariant count == StagedCount(rows, job, token, i) && bytes == StagedBytes(rows, job, token, i)
      {
        if Key(job, token, i) in rows { count, bytes := count + 1, bytes + rows[Key(job, token, i)].total; }
        i := i + 1;
      }
    }

    method FindChunk(chunks: seq<Chunk>, offset: nat) returns (bytes: Option<Bytes>)
      ensures bytes == ChunkAt(chunks, offset)
    {
      var n := |chunks|;
      assert chunks[..n] == chunks;
      while n > 0
        invariant 0 <= n <= |chunks| && ChunkAt(chunks, offset) == ChunkAt(chunks[..n], offset)
      {
        assert chunks[..n][..n - 1] == chunks[..n - 1];
        if chunks[n - 1].offset == offset { return Some(chunks[n - 1].bytes); }
        n := n - 1;
      }
      bytes := None;
    }

    /** The reassembly loop of one output row. */
    method ReadRow(row: Row, now: int) returns (reply: Result<Output, WorkerError>)
      ensures reply == OutputOf(row, now)
    {
      if row.expiresAt <= now || row.received != row.total { return Err(WORKER_OUTPUT_CONFLICT); }
      var parts: Bytes, i := [], 0;
      while i < |row.chunks|
        invariant 0 <= i <= |row.chunks| && Reassemble(row.chunks[..i]) == Some(parts)
      {
        var chunk := row.chunks[i];
        assert row.chunks[..i + 1][..i] == row.chunks[..i];
        if chunk.offset != |parts| || |chunk.bytes| < 1 || |chunk.bytes| > CHUNK {
          BrokenStaysBroken(row.chunks, i + 1);
          return Err(WORKER_OUTPUT_INVALID);
        }
        parts := parts + chunk.bytes;
        i := i + 1;
      }
      assert row.chunks[..i] == row.chunks;
      if |parts| != row.total || Sha256(parts) != row.digest { return Err(WORKER_OUTPUT_INVALID); }
      reply := Ok(Output(row.filename, row.mime, parts, row.digest));
    }

    method CompleteJob(call: Call, bound: bool, room: nat, now: int) returns (reply: Result<bool, WorkerError>)
      requires Valid() && store.clock <= now
      modifies this, store
      ensures Valid() && old(store.clock) <= store.clock <= now
      ensures (Model(), reply) == Complete(old(Model()), call, bound, room, now)
    {
      hide WorldInv, StagedBytes, StagedCount, NativeJobInvariants.Inv, Finish;
      CompleteKeeps(Model(), call, bound, room, Later(now));
      var error := WithClaim(call, now);
      if error.Some? { return Err(error.value); }
      var c := call.grant.ticket;
      if !bound { return Err(WORKER_OUTPUT_INVALID); }
      var count, total := CountStaged(c.id, c.token);
      if count == 0 || total > MAX_OUTPUT_BYTES { return Err(WORKER_OUTPUT_LIMIT); }
      ghost var entered := Model();
      var outputs: seq<Output>, i := [], 0;
      while i < MAX_OUTPUTS
        invariant 0 <= i <= MAX_OUTPUTS && Collect(rows, c.id, c.token, i, now) == Ok(outputs)
        invariant Valid() && store.clock == now && Model() == entered
      {
        if Key(c.id, c.token, i) in rows {
          var output := ReadRow(rows[Key(c.id, c.token, i)], now);
          if output.Err? {
            FailedCollect(rows, c.id, c.token, i + 1, MAX_OUTPUTS, now);
            return Err(output.error);
          }
          outputs := outputs + [output.value];
        }
        i := i + 1;
      }
      FailedFinish(store.Model(), c, Delivery(outputs, true, call.authorized, room), now);
      var accepted := store.Finish(c, Delivery(outputs, true, call.authorized, room), now);
      if accepted.Err? { return Err(JobError(accepted.error)); }
      if accepted.value { DropOutputs(c.id, c.token); }
      reply := Ok(accepted.value);
    }

    method DropOutputs(job: JobId, token: Token)
      modifies this`rows
      ensures rows == (map k | k in old(rows) && !(k.job == job && k.token == token) :: old(rows)[k])
    {
      rows := map k | k in rows && !(k.job == job && k.token == token) :: rows[k];
    }

    method FailClaim(call: Call, text: string, now: int) returns (reply: Result<bool, WorkerError>)
      requires Valid() && store.clock <= now
      modifies this, store
      ensures Valid() && old(store.clock) <= store.clock <= now
      ensures (Model(), reply) == FailJob(old(Model()), call, text, now)
    {
      hide WorldInv, NativeJobInvariants.Inv, Fail;
      FailWorldKeeps(Model(), call, text, Later(now));
      var error := WithClaim(call, now);
      if error.Some? { return Err(error.value); }
      store.Fail(call.grant.ticket, text, now);
      DropOutputs(call.grant.ticket.id, call.grant.ticket.token);
      reply := Ok(true);
    }

    method RenewClaim(call: Call, now: int) returns (reply: Result<bool, WorkerError>)
      requires Valid() && store.clock <= now
      modifies this, store
      ensures Valid() && old(store.clock) <= store.clock <= now
      ensures (Model(), reply) == RemoteRenew(old(Model()), call, now)
    {
      hide WorldInv, NativeJobInvariants.Inv, Renew;
      RenewWorldKeeps(Model(), call, Later(now));
      var error := WithClaim(call, now);
      if error.Some? { return Err(error.value); }
      var active := store.Renew(call.grant.ticket, call.authorized, now);
      reply := Ok(active);
    }

    method CreateClaim(r: RemoteRequest, now: int) returns (reply: Result<Option<Grant>, WorkerError>)
      requires Valid() && store.clock <= now && r.token !in store.drawnTokens
      modifies this, store
      ensures Valid() && old(store.clock) <= store.clock <= now
      ensures (Model(), reply) == RemoteClaim(old(Model()), r, now)
    {
      hide WorldInv, NativeJobInvariants.Inv, Claim, Fail;
      RemoteClaimKeeps(Model(), r, Later(now));
      if r.kinds == {} { return Err(WORKER_REQUEST_INVALID); }
      if !(r.kinds <= r.registered) { return Err(WORKER_SCOPE); }
      rows := map k | k in rows && rows[k].expiresAt > now
                      && k.job in store.jobs && store.jobs[k.job].state.Running? && store.jobs[k.job].token == Some(k.token)
                      && store.jobs[k.job].claimUntil > now && store.jobs[k.job].expiresAt > now && !store.jobs[k.job].cancelRequested
                :: rows[k];
      assert Model() == Cleanup(old(Model()), now);
      var ticket := store.Claim(AsClaim(r), now);
      if ticket.None? { return Ok(None); }
      if !r.inputOk {
        store.Fail(ticket.value, "JOB_INPUT_INVALID", now);
        return Ok(None);
      }
      var grant := Grant(r.worker, ticket.value, now + GRANT_SECONDS);
      grants := grants + {grant};
      reply := Ok(Some(grant));
    }
  }

  lemma {:induction false} EmptyBudget(job: JobId, token: Token, n: nat)
    ensures StagedBytes(map[], job, token, n) == 0
  {
    if n > 0 { EmptyBudget(job, token, n - 1); }
  }

  lemma {:induction false} BrokenStaysBroken(chunks: seq<Chunk>, n: nat)
    requires n <= |chunks| && Reassemble(chunks[..n]) == None
    ensures Reassemble(chunks) == None
    decreases |chunks| - n
  {
    if n == |chunks| {
      assert chunks[..n] == chunks;
    } else {
      assert chunks[..n + 1][..n] == chunks[..n];
      BrokenStaysBroken(chunks, n + 1);
    }
  }

  lemma {:induction false} FailedCollect(rows: map<Key, Row>, job: JobId, token: Token, n: nat, m: nat, now: int)
    requires n <= m && Collect(rows, job, token, n, now).Err?
    ensures Collect(rows, job, token, m, now) == Collect(rows, job, token, n, now)
  {
    if n < m { FailedCollect(rows, job, token, n, m - 1, now); }
  }

  lemma FailedFinish(t: Table, c: Ticket, d: Delivery, now: int)
    ensures Finish(t, c, d, now).1.Err? ==> Finish(t, c, d, now).0 == t
  {}
}

/** Tiling, budgets and grants: what every reachable authority state satisfies. */
module WorkerInvariants {
  import opened Numbers
  import opened Wrappers
  import opened NativeJobs
  import opened NativeJobInvariants
  import opened NativeJobRuns
  import opened NativeJobSafety
  import opened WorkerStaging

  // ---------- tiling ----------

  /** The chunks tile [0, received) at 256 KiB steps, and only the last may be short. */
  ghost predicate Tiled(row: Row) {
    && 1 <= row.total <= MAX_OUTPUT_BYTES
    && row.received == Min(|row.chunks| * CHUNK, row.total)
    && |row.chunks| * CHUNK < row.total + CHUNK
    && forall i :: 0 <= i < |row.chunks| ==>
         row.chunks[i].offset == i * CHUNK && |row.chunks[i].bytes| == Min(CHUNK, row.total - i * CHUNK)
  }

  lemma {:induction false} ChunkAtFinds(chunks: seq<Chunk>, offset: nat)
    requires forall i :: 0 <= i < |chunks| ==> chunks[i].offset == i * CHUNK
    ensures ChunkAt(chunks, offset) == if offset % CHUNK == 0 && offset / CHUNK < |chunks| then Some(chunks[offset / CHUNK].bytes) else None
    decreases |chunks|
  {
    if chunks != [] {
      var last := |chunks| - 1;
      ChunkAtFinds(chunks[..last], offset);
      if offset == last * CHUNK { assert offset / CHUNK == last; }
    }
  }

  /** A new part fits exactly when it is the next tile. */
  lemma AppendTiles(row: Row, p: Part)
    requires Tiled(row) && WellFormed(p) && Describes(p, row) && p.offset == row.received
    ensures Tiled(Append(row, p))
  {
    var n := |row.chunks|;
    assert row.received == n * CHUNK by { assert p.offset < row.total; }
    assert n * CHUNK + CHUNK == (n + 1) * CHUNK;
  }

  lemma {:induction false} ReassembleTiles(chunks: seq<Chunk>, total: nat)
    requires forall i :: 0 <= i < |chunks| ==> chunks[i].offset == i * CHUNK && |chunks[i].bytes| == Min(CHUNK, total - i * CHUNK)
    requires |chunks| * CHUNK < total + CHUNK
    ensures Reassemble(chunks).Some? && |Reassemble(chunks).value| == Min(|chunks| * CHUNK, total)
    ensures forall i :: 0 <= i < |chunks| ==>
      chunks[i].offset + |chunks[i].bytes| <= |Reassemble(chunks).value|
      && Reassemble(chunks).value[chunks[i].offset..chunks[i].offset + |chunks[i].bytes|] == chunks[i].bytes
    decreases |chunks|
  {
    if chunks != [] {
      var n := |chunks| - 1;
      var before := chunks[..n];
      assert (n + 1) * CHUNK == n * CHUNK + CHUNK;
      ReassembleTiles(before, total);
      var whole := Reassemble(chunks).value;
      var head := Reassemble(before).value;
      assert whole == head + chunks[n].bytes;
      forall i | 0 <= i < |chunks|
        ensures chunks[i].offset + |chunks[i].bytes| <= |whole|
        ensures whole[chunks[i].offset..chunks[i].offset + |chunks[i].bytes|] == chunks[i].bytes
      {
        if i < n {
          assert before[i] == chunks[i];
          var from, to := before[i].offset, before[i].offset + |before[i].bytes|;
          assert to <= |head|;
          assert whole[from..to] == head[from..to];
        } else {
          assert |head| == n * CHUNK == chunks[n].offset;
          assert whole[|head|..|head| + |chunks[n].bytes|] == chunks[n].bytes;
        }
      }
    }
  }

  // ---------- the invariant ----------

  ghost predicate GrantOk(w: World, g: Grant) {
    && g.ticket.token in w.table.drawnTokens && g.ticket.id in w.table.drawnIds
    && (g.ticket.id in w.table.jobs ==>
          var j := w.table.jobs[g.ticket.id];
          g.expiresAt >= j.expiresAt && TicketOf(g.ticket.id, j, g.ticket.token) == g.ticket)
  }

  ghost predicate GrantsOk(w: World) {
    && (forall g :: g in w.grants ==> GrantOk(w, g))
    && (forall g, h :: g in w.grants && h in w.grants && g.ticket.token == h.ticket.token ==> g == h)
  }

  /** A staged output belongs to a granted attempt of an existing job and expires with its grant. */
  ghost predicate Granted(w: World, k: Key) {
    exists g :: g in w.grants && g.ticket.id == k.job && g.ticket.token == k.token && k in w.rows && w.rows[k].expiresAt == g.expiresAt
  }

  ghost predicate StagedOk(w: World) {
    forall k :: k in w.rows ==> k.index < MAX_OUTPUTS && k.job in w.table.jobs && Tiled(w.rows[k]) && Granted(w, k)
  }

  ghost predicate BudgetOk(rows: map<Key, Row>) {
    forall job, token :: StagedBytes(rows, job, token, MAX_OUTPUTS) <= MAX_OUTPUT_BYTES
  }

  ghost predicate NamesOk(rows: map<Key, Row>) {
    forall k, l :: k in rows && l in rows && k.job == l.job && k.token == l.token && k != l ==> rows[k].filename != rows[l].filename
  }

  ghost predicate WorldInv(w: World, now: int) {
    Inv(w.table, now) && GrantsOk(w) && StagedOk(w) && BudgetOk(w.rows) && NamesOk(w.rows)
  }

  // ---------- sums over an attempt ----------

  lemma {:induction false} FewerStaged(rows: map<Key, Row>, fewer: map<Key, Row>, job: JobId, token: Token, n: nat)
    requires forall k :: k in fewer ==> k in rows && rows[k].total == fewer[k].total
    ensures StagedBytes(fewer, job, token, n) <= StagedBytes(rows, job, token, n)
  {
    if n > 0 { FewerStaged(rows, fewer, job, token, n - 1); }
  }

  lemma {:induction false} OneStaged(rows: map<Key, Row>, key: Key, row: Row, job: JobId, token: Token, n: nat)
    ensures StagedBytes(rows[key := row], job, token, n)
         == StagedBytes(rows, job, token, n)
            + if key.job == job && key.token == token && key.index < n then row.total - (if key in rows then rows[key].total else 0) else 0
  {
    if n > 0 { OneStaged(rows, key, row, job, token, n - 1); }
  }

  /** Dropping rows and running queue transactions keep the authority's part of the invariant. */
  lemma ShrinkKeeps(w: World, table: Table, rows: map<Key, Row>, e: Event, now: int)
    requires WorldInv(w, now) && Inv(table, now) && StepOk(w.table, table, e)
    requires forall k :: k in rows ==> k in w.rows && rows[k] == w.rows[k] && k.job in table.jobs
    ensures WorldInv(World(table, rows, w.grants), now)
  {
    var after := World(table, rows, w.grants);
    forall g | g in after.grants ensures GrantOk(after, g) {
      assert GrantOk(w, g);
      var id := g.ticket.id;
      if id in table.jobs && id in w.table.jobs { assert RowOk(w.table, table, e, id); }
    }
    forall k | k in rows ensures Granted(after, k) {
      assert Granted(w, k);
      var g :| g in w.grants && g.ticket.id == k.job && g.ticket.token == k.token && k in w.rows && w.rows[k].expiresAt == g.expiresAt;
      assert g in after.grants;
    }
    forall job, token ensures StagedBytes(rows, job, token, MAX_OUTPUTS) <= MAX_OUTPUT_BYTES {
      FewerStaged(w.rows, rows, job, token, MAX_OUTPUTS);
    }
  }

  // ---------- each call ----------

  lemma HoldersKeepRows(t: Table, c: Ticket, authorized: bool, text: string, d: Delivery, now: int)
    ensures Resolve(t, c, authorized, now).0.jobs.Keys == t.jobs.Keys
    ensures Renew(t, c, authorized, now).0.jobs.Keys == t.jobs.Keys
    ensures Fail(t, c, text, now).jobs.Keys == t.jobs.Keys
    ensures Finish(t, c, d, now).0.jobs.Keys == t.jobs.Keys
  {}

  const NO_DELIVERY := Delivery([], false, false, 0)

  lemma EnterKeeps(w: World, call: Call, now: int)
    requires WorldInv(w, now)
    ensures WorldInv(Enter(w, call, now).0, now)
    ensures Enter(w, call, now).1 == None ==> Enter(w, call, now).0 == w
  {
    var c := call.grant.ticket;
    ResolveKeeps(w.table, c, call.authorized, now);
    ResolveOk(w.table, c, call.authorized, now);
    HoldersKeepRows(w.table, c, call.authorized, "", NO_DELIVERY, now);
    ActiveChangesNothing(w, call, now);
    hide Resolve, WorldInv;
    if GrantError(w, call, now) == None { TableKeeps(w, Resolve(w.table, c, call.authorized, now).0, Quiet, now); }
  }

  lemma TableKeeps(w: World, table: Table, e: Event, now: int)
    requires WorldInv(w, now) && Inv(table, now) && StepOk(w.table, table, e)
    requires table.jobs.Keys == w.table.jobs.Keys
    ensures WorldInv(w.(table := table), now)
  {
    ShrinkKeeps(w, table, w.rows, e, now);
  }

  /** The resolver of an active claim only reads. */
  lemma ActiveChangesNothing(w: World, call: Call, now: int)
    ensures Enter(w, call, now).1 == None ==> Enter(w, call, now).0 == w
    ensures Enter(w, call, now).1 == None ==>
      var c := call.grant.ticket;
      call.grant in w.grants && call.grant.expiresAt > now && LiveClaim(w.table, c.id, c.token, now) && Has(w.table, c.project, c.id)
  {}

  lemma DropKeeps(w: World, rows: map<Key, Row>, now: int)
    requires WorldInv(w, now)
    requires forall k :: k in rows ==> k in w.rows && rows[k] == w.rows[k]
    ensures WorldInv(w.(rows := rows), now)
  {
    Unchanged(w.table);
    ShrinkKeeps(w, w.table, rows, Quiet, now);
  }

  lemma QueueKeeps(w: World, op: Op, now: int)
    requires WorldInv(w, now) && Fresh(w.table, op)
    ensures WorldInv(Cascade(w.(table := Step(w.table, op, now))), now)
  {
    StepKeeps(w.table, op, now);
    StepIsOk(w.table, op, now);
    hide Step, EventOf;
    var after := Cascade(w.(table := Step(w.table, op, now)));
    ShrinkKeeps(w, after.table, after.rows, EventOf(w.table, op, now), now);
  }

  lemma RenewWorldKeeps(w: World, call: Call, now: int)
    requires WorldInv(w, now)
    ensures WorldInv(RemoteRenew(w, call, now).0, now)
  {
    hide Enter, Renew, WorldInv, Inv, StepOk;
    EnterKeeps(w, call, now);
    TableIsOk(w, now);
    var c := call.grant.ticket;
    RenewKeeps(w.table, c, call.authorized, now);
    RenewOk(w.table, c, call.authorized, now);
    HoldersKeepRows(w.table, c, call.authorized, "", NO_DELIVERY, now);
    if Enter(w, call, now).1 == None { TableKeeps(w, Renew(w.table, c, call.authorized, now).0, Quiet, now); }
  }

  lemma FailWorldKeeps(w: World, call: Call, text: string, now: int)
    requires WorldInv(w, now)
    ensures WorldInv(FailJob(w, call, text, now).0, now)
  {
    EnterKeeps(w, call, now);
    var c := call.grant.ticket;
    hide Enter, Fail, WorldInv;
    if Enter(w, call, now).1 == None {
      var ended := w.(table := Fail(w.table, c, text, now));
      FailTableKeeps(w, c, text, now);
      DropKeeps(ended, DropAttempt(ended, c.id, c.token).rows, now);
    }
  }

  lemma PublishWorldKeeps(w: World, c: Ticket, d: Delivery, now: int)
    requires WorldInv(w, now)
    ensures WorldInv(w.(table := Finish(w.table, c, d, now).0), now)
    ensures WorldInv(DropAttempt(w.(table := Finish(w.table, c, d, now).0), c.id, c.token), now)
  {
    FinishKeeps(w.table, c, d, now);
    FinishOk(w.table, c, d, now);
    HoldersKeepRows(w.table, c, true, "", d, now);
    var ended := w.(table := Finish(w.table, c, d, now).0);
    var e := EventOf(w.table, FinishOp(c, d), now);
    hide Finish, EventOf, WorldInv;
    TableKeeps(w, ended.table, e, now);
    DropKeeps(ended, DropAttempt(ended, c.id, c.token).rows, now);
  }

  lemma CompleteKeeps(w: World, call: Call, bound: bool, room: nat, now: int)
    requires WorldInv(w, now)
    ensures WorldInv(Complete(w, call, bound, room, now).0, now)
  {
    EnterKeeps(w, call, now);
    var c := call.grant.ticket;
    hide Enter, WorldInv, StagedBytes, StagedCount;
    match Collect(w.rows, c.id, c.token, MAX_OUTPUTS, now)
    case Err(_) =>
    case Ok(outputs) =>
      hide Collect;
      PublishWorldKeeps(w, c, Delivery(outputs, true, call.authorized, room), now);
      hide Finish;
  }

  lemma StageKeeps(w: World, call: Call, p: Part, now: int)
    requires WorldInv(w, now)
    ensures WorldInv(Stage(w, call, p, now).0, now)
  {
    EnterKeeps(w, call, now);
    ActiveChangesNothing(w, call, now);
    if WellFormed(p) && Enter(w, call, now).1 == None && Accept(w, call.grant, p, now).Ok? {
      hide Enter;
      AcceptKeeps(w, call.grant, p, now);
    }
  }

  /** The stored row keeps its name, size and expiry and stays tiled; a new one fits the budget. */
  lemma AcceptTiles(w: World, g: Grant, p: Part, now: int)
    requires WorldInv(w, now) && WellFormed(p) && Accept(w, g, p, now).Ok?
    ensures var key, row := Key(g.ticket.id, g.ticket.token, p.index), Accept(w, g, p, now).value;
      && Tiled(row) && row.total == p.total
      && (key in w.rows ==> row.filename == w.rows[key].filename && row.total == w.rows[key].total && row.expiresAt == w.rows[key].expiresAt)
      && (key !in w.rows ==> row.expiresAt == g.expiresAt && !NameTaken(w.rows, key.job, key.token, row.filename)
                             && StagedBytes(w.rows, key.job, key.token, MAX_OUTPUTS) + row.total <= MAX_OUTPUT_BYTES)
  {
    hide StagedBytes, StagedCount;
    var key, row := Key(g.ticket.id, g.ticket.token, p.index), RowFor(w, g, p).value;
    assert Tiled(row);
    if ChunkAt(row.chunks, p.offset) == None { AppendTiles(row, p); }
  }

  lemma InsertStaysGranted(w: World, g: Grant, key: Key, row: Row)
    requires GrantsOk(w) && StagedOk(w) && g in w.grants && g.ticket.id == key.job && key.job in w.table.jobs && g.ticket.token == key.token
    requires key.index < MAX_OUTPUTS && Tiled(row)
    requires row.expiresAt == if key in w.rows then w.rows[key].expiresAt else g.expiresAt
    ensures GrantsOk(w.(rows := w.rows[key := row])) && StagedOk(w.(rows := w.rows[key := row]))
  {
    hide Tiled;
    var after := w.(rows := w.rows[key := row]);
    forall h | h in after.grants ensures GrantOk(after, h) { assert GrantOk(w, h); }
    forall k | k in after.rows ensures Granted(after, k) {
      if k in w.rows {
        assert Granted(w, k);
        var h :| h in w.grants && h.ticket.id == k.job && h.ticket.token == k.token && w.rows[k].expiresAt == h.expiresAt;
        assert h in after.grants;
      } else {
        assert g in after.grants;
      }
    }
  }

  lemma InsertStaysInBudget(rows: map<Key, Row>, key: Key, row: Row)
    requires BudgetOk(rows)
    requires if key in rows then row.total == rows[key].total
             else StagedBytes(rows, key.job, key.token, MAX_OUTPUTS) + row.total <= MAX_OUTPUT_BYTES
    ensures BudgetOk(rows[key := row])
  {
    var after := rows[key := row];
    forall job, token ensures StagedBytes(after, job, token, MAX_OUTPUTS) <= MAX_OUTPUT_BYTES {
      OneStaged(rows, key, row, job, token, MAX_OUTPUTS);
      assert StagedBytes(rows, job, token, MAX_OUTPUTS) <= MAX_OUTPUT_BYTES;
    }
  }

  lemma InsertStaysNamed(w: World, key: Key, row: Row)
    requires StagedOk(w) && NamesOk(w.rows)
    requires if key in w.rows then row.filename == w.rows[key].filename else !NameTaken(w.rows, key.job, key.token, row.filename)
    ensures NamesOk(w.rows[key := row])
  {
    hide Tiled, Granted;
    forall k | k in w.rows && k.job == key.job && k.token == key.token && k != key
      ensures w.rows[k].filename != row.filename
    {
      assert k == Key(key.job, key.token, k.index) && k.index < MAX_OUTPUTS;
    }
  }

  lemma RowInsertKeeps(w: World, g: Grant, key: Key, row: Row, now: int)
    requires WorldInv(w, now) && g in w.grants && g.ticket.id == key.job && key.job in w.table.jobs && g.ticket.token == key.token
    requires key.index < MAX_OUTPUTS && Tiled(row)
    requires key in w.rows ==> row.filename == w.rows[key].filename && row.total == w.rows[key].total && row.expiresAt == w.rows[key].expiresAt
    requires key !in w.rows ==> row.expiresAt == g.expiresAt && !NameTaken(w.rows, key.job, key.token, row.filename)
                                && StagedBytes(w.rows, key.job, key.token, MAX_OUTPUTS) + row.total <= MAX_OUTPUT_BYTES
    ensures WorldInv(w.(rows := w.rows[key := row]), now)
  {
    hide Inv, GrantsOk, StagedOk, BudgetOk, NamesOk, Tiled, StagedBytes, NameTaken;
    InsertStaysGranted(w, g, key, row);
    InsertStaysInBudget(w.rows, key, row);
    InsertStaysNamed(w, key, row);
  }

  lemma AcceptKeeps(w: World, g: Grant, p: Part, now: int)
    requires WorldInv(w, now) && WellFormed(p) && g in w.grants && g.ticket.id in w.table.jobs
    requires Accept(w, g, p, now).Ok?
    ensures WorldInv(w.(rows := w.rows[Key(g.ticket.id, g.ticket.token, p.index) := Accept(w, g, p, now).value]), now)
  {
    AcceptTiles(w, g, p, now);
    hide WorldInv, Accept, StagedBytes;
    RowInsertKeeps(w, g, Key(g.ticket.id, g.ticket.token, p.index), Accept(w, g, p, now).value, now);
  }

  lemma ClaimWorldKeeps(w: World, q: ClaimRequest, now: int)
    requires WorldInv(w, now) && q.token !in w.table.drawnTokens
    ensures WorldInv(w.(table := Claim(w.table, q, now).0), now)
  {
    ClaimKeeps(w.table, q, now);
    ClaimOk(w.table, q, now);
    ClaimFrame(w.table, q, now);
    hide Claim, WorldInv, EventOf;
    TableKeeps(w, Claim(w.table, q, now).0, EventOf(w.table, ClaimOp(q), now), now);
  }

  lemma FailTableKeeps(w: World, c: Ticket, text: string, now: int)
    requires WorldInv(w, now)
    ensures WorldInv(w.(table := Fail(w.table, c, text, now)), now)
  {
    FailKeeps(w.table, c, text, now);
    FailOk(w.table, c, text, now);
    HoldersKeepRows(w.table, c, true, text, NO_DELIVERY, now);
    hide Fail, WorldInv;
    TableKeeps(w, Fail(w.table, c, text, now), Quiet, now);
  }

  lemma TableIsOk(w: World, now: int)
    requires WorldInv(w, now)
    ensures Inv(w.table, now)
  {
  }

  lemma TokensDrawn(w: World, now: int)
    requires WorldInv(w, now)
    ensures forall h :: h in w.grants ==> h.ticket.token in w.table.drawnTokens
  {
    forall h | h in w.grants ensures h.ticket.token in w.table.drawnTokens { assert GrantOk(w, h); }
  }

  lemma ClaimedKeeps(clean: World, r: RemoteRequest, now: int)
    requires WorldInv(clean, now) && r.token !in clean.table.drawnTokens
    ensures var (table, ticket) := Claim(clean.table, AsClaim(r), now); var claimed := clean.(table := table);
      && WorldInv(claimed, now)
      && (ticket.Some? ==>
            var grant := Grant(r.worker, ticket.value, now + GRANT_SECONDS);
            && WorldInv(claimed.(table := Fail(table, ticket.value, "JOB_INPUT_INVALID", now)), now)
            && WorldInv(claimed.(grants := clean.grants + {grant}), now))
  {
    hide WorldInv, Claim, Fail, LiveClaim, Inv;
    var q := AsClaim(r);
    TokensDrawn(clean, now);
    TableIsOk(clean, now);
    ClaimFrame(clean.table, q, now);
    ClaimWorldKeeps(clean, q, now);
    var (table, ticket) := Claim(clean.table, q, now);
    var claimed := clean.(table := table);
    if ticket.Some? {
      ClaimTicket(clean.table, q, now);
      GrantKeeps(claimed, Grant(r.worker, ticket.value, now + GRANT_SECONDS), clean.table.drawnTokens, now);
      FailTableKeeps(claimed, ticket.value, "JOB_INPUT_INVALID", now);
    }
  }

  lemma RemoteClaimKeeps(w: World, r: RemoteRequest, now: int)
    requires WorldInv(w, now) && r.token !in w.table.drawnTokens
    ensures WorldInv(RemoteClaim(w, r, now).0, now)
  {
    hide WorldInv, Claim, Fail, LiveClaim;
    var clean := Cleanup(w, now);
    DropKeeps(w, clean.rows, now);
    assert w.(rows := clean.rows) == clean;
    ClaimedKeeps(clean, r, now);
    var ((table, ticket), after) := (Claim(clean.table, AsClaim(r), now), RemoteClaim(w, r, now).0);
    if r.kinds == {} || !(r.kinds <= r.registered) {
      assert after == w;
    } else if ticket.None? {
      assert after == clean.(table := table);
    } else if !r.inputOk {
      assert after == clean.(table := Fail(table, ticket.value, "JOB_INPUT_INVALID", now));
    } else {
      assert after == clean.(table := table).(grants := clean.grants + {Grant(r.worker, ticket.value, now + GRANT_SECONDS)});
    }
  }

  /** A ticket repeats what the row says, and the row carries its token. */
  lemma ClaimTicket(t: Table, q: ClaimRequest, now: int)
    requires Inv(t, now) && q.token !in t.drawnTokens && Claim(t, q, now).1.Some?
    ensures var (after, c) := (Claim(t, q, now).0, Claim(t, q, now).1.value);
      c.token == q.token && c.id in after.jobs && c.id in after.drawnIds && LiveClaim(after, c.id, c.token, now)
      && TicketOf(c.id, after.jobs[c.id], c.token) == c
  {
    ClaimOutcome(t, q, now);
    ClaimKeeps(t, q, now);
    var id := Claim(t, q, now).1.value.id;
    var r := Recovered(t, now);
    assert Claimable(r, q, now, id);
    assert JobOk(r.jobs[id], now);
  }

  lemma GrantKeeps(w: World, g: Grant, earlier: set<Token>, now: int)
    requires WorldInv(w, now) && g.expiresAt == now + GRANT_SECONDS
    requires g.ticket.token in w.table.drawnTokens && g.ticket.id in w.table.drawnIds && g.ticket.id in w.table.jobs
    requires TicketOf(g.ticket.id, w.table.jobs[g.ticket.id], g.ticket.token) == g.ticket
    requires g.ticket.token !in earlier && forall h :: h in w.grants ==> h.ticket.token in earlier
    ensures WorldInv(w.(grants := w.grants + {g}), now)
  {
    var after := w.(grants := w.grants + {g});
    assert JobOk(w.table.jobs[g.ticket.id], now);
    forall h | h in after.grants ensures GrantOk(after, h) { if h != g { assert GrantOk(w, h); } }
    forall k | k in after.rows ensures Granted(after, k) {
      assert Granted(w, k);
      var h :| h in w.grants && h.ticket.id == k.job && h.ticket.token == k.token && w.rows[k].expiresAt == h.expiresAt;
      assert h in after.grants;
    }
  }
}

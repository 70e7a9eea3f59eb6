/** The queue operations as the server performs them: each method is one transaction
    that reads and updates the job rows in place. */
module NativeJobStore {
  import opened Numbers
  import opened Wrappers
  import opened NativeJobs
  import opened NativeJobInvariants

  lemma OrderedStep(jobs: map<JobId, Job>, ids: set<JobId>, first: JobId)
    requires forall id :: id in ids ==> id in jobs
    requires IsFirst(jobs, ids, first)
    ensures Ordered(jobs, ids) == [first] + Ordered(jobs, ids - {first})
  {
    FirstExists(jobs, ids);
    var head := Ordered(jobs, ids)[0];
    assert IsFirst(jobs, ids, head);
    assert head == first;
  }

  lemma PreviousIs(t: Table, r: Submission, id: JobId, now: int)
    requires Inv(t, now) && id in t.jobs && SameKey(t.jobs[id], r)
    ensures Previous(t, r) == Some(id)
  {}

  function Ids(rows: seq<JobId>): set<JobId> { set id | id in rows }

  /** The rows before i are recovered; so is then row i. */
  lemma RecoverNext(jobs: map<JobId, Job>, rows: seq<JobId>, i: nat, now: int)
    requires i < |rows| && rows[i] in jobs && forall k :: 0 <= k < i ==> rows[k] != rows[i]
    ensures rows[i] in RecoverAll(jobs, Ids(rows[..i]), now) && RecoverAll(jobs, Ids(rows[..i]), now)[rows[i]] == jobs[rows[i]]
    ensures RecoverAll(jobs, Ids(rows[..i + 1]), now) == RecoverAll(jobs, Ids(rows[..i]), now)[rows[i] := Recover(jobs[rows[i]], now)]
  {
    hide Recover;
    assert rows[..i + 1] == rows[..i] + [rows[i]] && rows[i] !in rows[..i];
  }

  class JobStore {
    var jobs: map<JobId, Job>
    var published: map<JobId, seq<Output>>
    var clock: int
    ghost var drawnIds: set<JobId>
    ghost var drawnTokens: set<Token>

    ghost function Model(): Table
      reads this
    {
      Table(jobs, published, drawnIds, drawnTokens)
    }

    ghost predicate Valid()
      reads this
    {
      Inv(Model(), clock)
    }

    constructor (now: int)
      ensures Valid() && Model() == EMPTY && clock == now
    {
      jobs, published, clock := map[], map[], now;
      drawnIds, drawnTokens := {}, {};
      new;
      assert RunningIds(jobs) == {} && ActiveIds(jobs) == {};
      forall p ensures ProjectBounded(jobs, p) {
        assert ProjectIds(jobs, p) == {} && ProjectActiveIds(jobs, p) == {};
      }
    }

    // ---------- the project's members ----------

    method Submit(r: Submission, now: int) returns (reply: Result<JobId, Error>)
      requires Valid() && clock <= now && r.id !in drawnIds
      modifies this
      ensures Valid() && clock == now
      ensures (Model(), reply) == NativeJobs.Submit(old(Model()), r, now)
    {
      hide Inv;
      ghost var was := Model();
      SubmitKeeps(was, r, Later(now));
      clock := now;
      if !r.authorized { return Err(ACCESS_DENIED); }
      if id :| id in jobs && SameKey(jobs[id], r) {
        PreviousIs(was, r, id, now);
        if jobs[id].request != r.request { return Err(IDEMPOTENCY_CONFLICT); }
        return Ok(id);
      }
      if r.refusal.Some? { return Err(r.refusal.value); }
      var total := |ProjectIds(jobs, r.project)|;
      var active := |ProjectActiveIds(jobs, r.project)|;
      var everywhere := |ActiveIds(jobs)|;
      if total >= MAX_PROJECT_JOBS || active >= MAX_PROJECT_ACTIVE || everywhere >= MAX_ACTIVE {
        return Err(JOB_CAPACITY);
      }
      jobs := jobs[r.id := NewJob(r, now)];
      drawnIds := drawnIds + {r.id};
      reply := Ok(r.id);
    }

    method Cancel(project: ProjectId, id: JobId, authorized: bool, now: int) returns (reply: Result<(), Error>)
      requires Valid() && clock <= now
      modifies this
      ensures Valid() && clock == now
      ensures (Model(), reply) == NativeJobs.Cancel(old(Model()), project, id, authorized)
    {
      CancelKeeps(Model(), project, id, authorized, Later(now));
      clock := now;
      if !authorized { return Err(ACCESS_DENIED); }
      if id !in jobs || jobs[id].project != project { return Err(JOB_NOT_FOUND); }
      if jobs[id].state.Queued? {
        jobs := jobs[id := jobs[id].(state := Cancelled, cancelRequested := true)];
      } else if jobs[id].state.Running? {
        jobs := jobs[id := jobs[id].(cancelRequested := true)];
      }
      reply := Ok(());
    }

    method Delete(project: ProjectId, id: JobId, authorized: bool, now: int) returns (reply: Result<(), Error>)
      requires Valid() && clock <= now
      modifies this
      ensures Valid() && clock == now
      ensures (Model(), reply) == NativeJobs.Delete(old(Model()), project, id, authorized)
    {
      DeleteKeeps(Model(), project, id, authorized, Later(now));
      clock := now;
      if !authorized { return Err(ACCESS_DENIED); }
      if id !in jobs || jobs[id].project != project { return Err(JOB_NOT_FOUND); }
      if jobs[id].state.Running? || jobs[id].state.Queued? { return Err(JOB_ACTIVE); }
      jobs, published := jobs - {id}, published - {id};
      reply := Ok(());
    }

    // ---------- claim ----------

    /** SELECT ... WHERE state='running' AND claim_until<=? LIMIT 64, in no particular order. */
    method SelectStale(now: int) returns (rows: seq<JobId>)
      ensures |rows| <= BATCH && (|rows| < BATCH ==> Ids(rows) == StaleIds(jobs, now))
      ensures forall i :: 0 <= i < |rows| ==> rows[i] in StaleIds(jobs, now)
      ensures forall i, k :: 0 <= i < k < |rows| ==> rows[i] != rows[k]
      ensures |StaleIds(jobs, now)| >= |rows|
    {
      rows := [];
      var rest := StaleIds(jobs, now);
      while rest != {} && |rows| < BATCH
        invariant rest <= StaleIds(jobs, now) && |rows| <= BATCH
        invariant Ids(rows) + rest == StaleIds(jobs, now)
        invariant |rest| + |rows| == |StaleIds(jobs, now)|
        invariant forall i :: 0 <= i < |rows| ==> rows[i] in StaleIds(jobs, now) && rows[i] !in rest
        invariant forall i, k :: 0 <= i < k < |rows| ==> rows[i] != rows[k]
        decreases |rest|
      {
        var id :| id in rest;
        rows, rest := rows + [id], rest - {id};
      }
    }

    /** SELECT ... WHERE state='queued' AND <scope> ORDER BY created_at,id LIMIT 64. */
    method SelectQueued(scope: Scope) returns (rows: seq<JobId>)
      ensures rows == Take(Ordered(jobs, QueuedIds(jobs, scope)), BATCH)
    {
      rows := [];
      var rest := QueuedIds(jobs, scope);
      while rest != {} && |rows| < BATCH
        invariant rest <= QueuedIds(jobs, scope) && |rows| <= BATCH
        invariant rows + Ordered(jobs, rest) == Ordered(jobs, QueuedIds(jobs, scope))
        decreases |rest|
      {
        var first := First(rest);
        OrderedStep(jobs, rest, first);
        rows, rest := rows + [first], rest - {first};
      }
    }

    method First(ids: set<JobId>) returns (first: JobId)
      requires ids != {} && forall id :: id in ids ==> id in jobs
      ensures IsFirst(jobs, ids, first)
    {
      first :| first in ids;
      var rest := ids - {first};
      while rest != {}
        invariant rest < ids && first in ids && first !in rest
        invariant forall id :: id in ids - rest && id != first ==> Before(jobs, first, id)
        decreases |rest|
      {
        var id :| id in rest;
        assert ids - (rest - {id}) == (ids - rest) + {id};
        if Before(jobs, id, first) {
          forall other | other in ids - rest ensures Before(jobs, id, other) {
            assert other == first || Before(jobs, first, other);
          }
          first := id;
        }
        rest := rest - {id};
      }
    }

    /** UPDATE ... SET state=?, error_code=?, claim_token=NULL, claim_until=0. */
    method End(id: JobId, state: State, code: Code)
      requires id in jobs
      modifies this`jobs
      ensures jobs == old(jobs)[id := Terminal(old(jobs)[id], state, code)]
    {
      jobs := jobs[id := jobs[id].(state := state, error := Some(code), token := None, claimUntil := 0)];
    }

    method RecoverRows(stale: seq<JobId>, now: int)
      requires forall i :: 0 <= i < |stale| ==> stale[i] in jobs
      requires forall i, k :: 0 <= i < k < |stale| ==> stale[i] != stale[k]
      modifies this`jobs
      ensures jobs == RecoverAll(old(jobs), Ids(stale), now)
    {
      ghost var was := jobs;
      assert Ids(stale[..0]) == {} && RecoverAll(was, {}, now) == was;
      hide RecoverAll, Ids;
      var i := 0;
      while i < |stale|
        invariant 0 <= i <= |stale|
        invariant jobs == RecoverAll(was, Ids(stale[..i]), now)
      {
        var id := stale[i];
        RecoverNext(was, stale, i, now);
        if jobs[id].cancelRequested {
          End(id, Cancelled, CANCELLED);
        } else if jobs[id].attempts >= MAX_ATTEMPTS || jobs[id].expiresAt <= now {
          End(id, Failed, LEASE_EXPIRED);
        } else {
          jobs := jobs[id := jobs[id].(state := Queued, token := None, claimUntil := 0)];
        }
        i := i + 1;
      }
      assert stale[..i] == stale;
    }

    method RecoverStale(now: int)
      requires Valid() && clock <= now
      modifies this`jobs
      ensures Model() == Recovered(old(Model()), now)
      ensures Inv(Model(), now)
    {
      hide Inv, RecoverAll;
      ghost var was := Model();
      StaleFitsBatch(was, Later(now));
      var stale := SelectStale(now);
      RecoverRows(stale, now);
      RecoverSomeKeeps(was, StaleIds(was.jobs, now), now);
    }

    method LeaseFirst(rows: seq<JobId>, q: ClaimRequest, now: int) returns (ticket: Option<Ticket>)
      requires forall id :: id in rows ==> id in jobs
      requires forall i, k :: 0 <= i < k < |rows| ==> rows[i] != rows[k]
      modifies this`jobs, this`drawnTokens
      ensures (Model(), ticket) == Scan(old(Model()), rows, q, now)
    {
      ghost var was := Model();
      var i := 0;
      while i < |rows|
        invariant 0 <= i <= |rows|
        invariant jobs.Keys == was.jobs.Keys
        invariant forall k :: i <= k < |rows| ==> jobs[rows[k]] == was.jobs[rows[k]]
        invariant Scan(was, rows, q, now) == Scan(Model(), rows[i..], q, now)
      {
        var id, row := rows[i], jobs[rows[i]];
        assert rows[i..][0] == id && rows[i..][1..] == rows[i + 1..];
        i := i + 1;
        if row.cancelRequested || row.expiresAt <= now {
          if row.cancelRequested { End(id, Cancelled, CANCELLED); } else { End(id, Failed, QUEUE_EXPIRED); }
          continue;
        }
        if id !in q.live {
          End(id, Failed, ACCESS_CHANGED);
          continue;
        }
        if q.scope.Local? && row.kind !in q.scope.available {
          End(id, Failed, NATIVE_UNAVAILABLE);
          continue;
        }
        jobs := jobs[id := row.(state := Running, token := Some(q.token), claimUntil := now + LEASE_SECONDS,
                                attempts := row.attempts + 1)];
        drawnTokens := drawnTokens + {q.token};
        return Some(Ticket(id, q.token, row.project, row.kind, row.input, row.digest));
      }
      ticket := None;
    }

    method Claim(q: ClaimRequest, now: int) returns (ticket: Option<Ticket>)
      requires Valid() && clock <= now && q.token !in drawnTokens
      modifies this
      ensures Valid() && clock == now
      ensures (Model(), ticket) == NativeJobs.Claim(old(Model()), q, now)
    {
      hide Inv, Recovered, Ordered, Scan;
      ClaimKeeps(Model(), q, Later(now));
      RecoverStale(now);
      clock := now;
      if |RunningIds(jobs)| >= MAX_RUNNING { return None; }
      ghost var all := ListingFacts(Model(), q.scope, now);
      var rows := SelectQueued(q.scope);
      ticket := LeaseFirst(rows, q, now);
    }

    // ---------- the holder of a claim ----------

    /** The same rows at the later instant `now`. */
    ghost function Later(now: int): (later: int)
      requires Valid() && clock <= now
      reads this
      ensures later == now && Inv(Model(), later)
    {
      InvLater(Model(), clock, now);
      now
    }

    method OwnedRow(c: Ticket, now: int) returns (row: Option<Job>)
      modifies this`jobs
      ensures (Model(), row.Some?) == Own(old(Model()), c, now)
      ensures row.Some? ==> c.id in jobs && row.value == jobs[c.id]
    {
      if c.id !in jobs || jobs[c.id].project != c.project || !jobs[c.id].state.Running?
         || jobs[c.id].token != Some(c.token) || jobs[c.id].claimUntil <= now { return None; }
      if jobs[c.id].expiresAt <= now {
        if jobs[c.id].cancelRequested { End(c.id, Cancelled, CANCELLED); } else { End(c.id, Failed, JOB_DEADLINE_EXCEEDED); }
        return None;
      }
      row := Some(jobs[c.id]);
    }

    method Resolve(c: Ticket, authorized: bool, now: int) returns (active: bool)
      requires Valid() && clock <= now
      modifies this
      ensures Valid() && clock == now
      ensures (Model(), active) == NativeJobs.Resolve(old(Model()), c, authorized, now)
    {
      ResolveKeeps(Model(), c, authorized, Later(now));
      clock := now;
      if c.id !in jobs { return false; }
      var row := jobs[c.id];
      if row.project != c.project || !row.state.Running? || row.token != Some(c.token) || row.claimUntil <= now { return false; }
      if row.kind != c.kind || row.input != c.input || row.digest != c.digest { return false; }
      if row.cancelRequested || row.expiresAt <= now {
        if row.cancelRequested { End(c.id, Cancelled, CANCELLED); } else { End(c.id, Failed, JOB_DEADLINE_EXCEEDED); }
        return false;
      }
      if !authorized {
        End(c.id, Failed, ACCESS_CHANGED);
        return false;
      }
      active := true;
    }

    method Renew(c: Ticket, authorized: bool, now: int) returns (active: bool)
      requires Valid() && clock <= now
      modifies this
      ensures Valid() && clock == now
      ensures (Model(), active) == NativeJobs.Renew(old(Model()), c, authorized, now)
    {
      hide Inv;
      RenewKeeps(Model(), c, authorized, Later(now));
      clock := now;
      var row := OwnedRow(c, now);
      if row.None? { return false; }
      if row.value.cancelRequested {
        End(c.id, Cancelled, CANCELLED);
        return false;
      }
      if !authorized {
        End(c.id, Failed, ACCESS_CHANGED);
        return false;
      }
      jobs := jobs[c.id := row.value.(claimUntil := Min(now + LEASE_SECONDS, row.value.expiresAt))];
      active := true;
    }

    method Fail(c: Ticket, text: string, now: int)
      requires Valid() && clock <= now
      modifies this
      ensures Valid() && clock == now
      ensures Model() == NativeJobs.Fail(old(Model()), c, text, now)
    {
      FailKeeps(Model(), c, text, Later(now));
      clock := now;
      var row := OwnedRow(c, now);
      if row.Some? {
        if row.value.cancelRequested { End(c.id, Cancelled, CANCELLED); } else { End(c.id, Failed, Reported(text)); }
      }
    }

    method CheckBudget(outputs: seq<Output>) returns (ok: bool)
      ensures ok == WithinBudget(outputs)
    {
      var total, i := 0, 0;
      while i < |outputs|
        invariant 0 <= i <= |outputs| && total == TotalBytes(outputs[..i])
      {
        assert outputs[..i + 1][..i] == outputs[..i];
        total := total + |outputs[i].bytes|;
        i := i + 1;
      }
      assert outputs[..i] == outputs;
      ok := |outputs| > 0 && |outputs| <= MAX_OUTPUTS && total <= MAX_OUTPUT_BYTES;
    }

    /** Artifacts are stored and linked to the job one by one, up to the first that is refused. */
    method LinkOutputs(id: JobId, outputs: seq<Output>, capacity: nat) returns (objection: Option<Error>)
      modifies this`published
      ensures objection == FirstObjection(outputs, capacity)
      ensures objection.None? ==> published == old(published)[id := outputs]
    {
      published := published[id := []];
      var i, room := 0, capacity;
      assert outputs[0..] == outputs;
      while i < |outputs|
        invariant 0 <= i <= |outputs| && i + room == capacity
        invariant published == old(published)[id := outputs[..i]]
        invariant FirstObjection(outputs, capacity) == FirstObjection(outputs[i..], room)
      {
        var output := outputs[i];
        assert outputs[i..][1..] == outputs[i + 1..];
        if |output.bytes| == 0 || output.digest != Sha256(output.bytes) { return Some(JOB_OUTPUT_INVALID); }
        if room == 0 { return Some(ARTIFACT_CAPACITY); }
        room := room - 1;
        published := published[id := published[id] + [output]];
        assert outputs[..i + 1] == outputs[..i] + [output];
        i := i + 1;
      }
      assert outputs[..i] == outputs;
      objection := None;
    }

    /** An exception on the way rolls the transaction back, so a failed publication leaves
        nothing behind. */
    method Finish(c: Ticket, d: Delivery, now: int) returns (reply: Result<bool, Error>)
      requires Valid() && clock <= now
      modifies this
      ensures Valid() && clock == now
      ensures (Model(), reply) == NativeJobs.Finish(old(Model()), c, d, now)
    {
      hide Inv;
      FinishKeeps(Model(), c, d, Later(now));
      ghost var was := Model();
      var savedJobs, savedPublished := jobs, published;
      clock := now;
      var row := OwnedRow(c, now);
      if row.None? { return Ok(false); }
      if row.value.cancelRequested {
        End(c.id, Cancelled, CANCELLED);
        return Ok(false);
      }
      if !d.authorized { return Err(ACCESS_DENIED); }
      if !d.bound { return Err(JOB_OUTPUT_INVALID); }
      var fits := CheckBudget(d.outputs);
      if !fits { return Err(JOB_OUTPUT_SIZE); }
      var objection := LinkOutputs(c.id, d.outputs, d.room);
      if objection.Some? {
        jobs, published := savedJobs, savedPublished;
        return Err(objection.value);
      }
      jobs := jobs[c.id := jobs[c.id].(state := Succeeded, token := None, claimUntil := 0, error := None)];
      reply := Ok(true);
    }
  }
}

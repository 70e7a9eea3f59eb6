/** What every reachable job table satisfies, and what one transaction may do to one row. */
module NativeJobInvariants {
  import opened Wrappers
  import opened Finite
  import opened NativeJobs

  // ---------- the invariant ----------

  ghost predicate JobOk(j: Job, now: int) {
    && (j.state.Running? <==> j.token.Some?)
    && (j.token.None? ==> j.claimUntil == 0)
    && (j.state.Running? ==> 1 <= j.attempts && j.claimUntil <= now + LEASE_SECONDS)
    && (j.state.Queued? ==> j.attempts < MAX_ATTEMPTS && !j.cancelRequested)
    && j.attempts <= MAX_ATTEMPTS
    && (!Active(j) ==> (j.state.Cancelled? <==> j.cancelRequested))
    && j.createdAt <= now
    && j.expiresAt == j.createdAt + JOB_DEADLINE_SECONDS
  }

  ghost predicate RowsOk(t: Table, now: int) {
    forall id :: id in t.jobs ==> JobOk(t.jobs[id], now)
  }

  /** The unique index on (project, submitter, retry key). */
  ghost predicate KeysUnique(jobs: map<JobId, Job>) {
    forall a, b :: a in jobs && b in jobs && a != b ==>
      jobs[a].project != jobs[b].project || jobs[a].owner != jobs[b].owner || jobs[a].key != jobs[b].key
  }

  ghost predicate Fenced(t: Table) {
    && (forall id :: id in t.jobs && t.jobs[id].token.Some? ==> t.jobs[id].token.value in t.drawnTokens)
    && (forall a, b :: a in t.jobs && b in t.jobs && a != b && t.jobs[a].token.Some? ==> t.jobs[a].token != t.jobs[b].token)
    && t.jobs.Keys <= t.drawnIds
  }

  ghost predicate Bounded(jobs: map<JobId, Job>) {
    && |RunningIds(jobs)| <= MAX_RUNNING
    && |ActiveIds(jobs)| <= MAX_ACTIVE
    && (forall p :: ProjectBounded(jobs, p))
  }

  ghost predicate ProjectBounded(jobs: map<JobId, Job>, p: ProjectId) {
    |ProjectIds(jobs, p)| <= MAX_PROJECT_JOBS && |ProjectActiveIds(jobs, p)| <= MAX_PROJECT_ACTIVE
  }

  ghost predicate OutputsOk(outputs: seq<Output>) {
    WithinBudget(outputs) && forall i :: 0 <= i < |outputs| ==> Intact(outputs[i])
  }

  ghost predicate PublishedOk(t: Table) {
    && (forall id :: id in t.published <==> id in t.jobs && t.jobs[id].state.Succeeded?)
    && (forall id :: id in t.published ==> OutputsOk(t.published[id]))
  }

  ghost predicate Inv(t: Table, now: int) {
    RowsOk(t, now) && KeysUnique(t.jobs) && Fenced(t) && Bounded(t.jobs) && PublishedOk(t)
  }

  lemma InvLater(t: Table, now: int, later: int)
    requires Inv(t, now) && now <= later
    ensures Inv(t, later)
  {}

  // ---------- one row ----------

  /** A row that only moves towards its end: no new lease, no success. */
  ghost predicate Ends(j: Job, k: Job) {
    && k.project == j.project && k.owner == j.owner && k.key == j.key
    && (Active(k) ==> Active(j))
    && (k.state.Running? ==> j.state.Running?)
    && (k.token.Some? ==> k.token == j.token)
    && (k.state.Succeeded? <==> j.state.Succeeded?)
  }

  /** Every way one transaction may change one surviving row: ended rows are frozen, a
      requested cancellation admits no other end, and only a leased row succeeds. */
  ghost predicate Moves(j: Job, k: Job) {
    && k.(state := j.state, attempts := j.attempts, cancelRequested := j.cancelRequested,
          token := j.token, claimUntil := j.claimUntil, error := j.error) == j
    && (!Active(j) ==> k == j)
    && (j.cancelRequested ==> k.cancelRequested && (k.state == j.state || k.state.Cancelled?))
    && j.attempts <= k.attempts <= j.attempts + 1
    && (k.attempts > j.attempts ==> k.state.Running?)
    && (k.state.Succeeded? && !j.state.Succeeded? ==> j.state.Running? && !j.cancelRequested)
    && (k.state.Queued? && j.state.Running? ==> k.attempts == 1)
  }

  /** Fewer rows, none newly active or running: the limits stay met. */
  lemma ShrinkBounded(before: map<JobId, Job>, after: map<JobId, Job>)
    requires Bounded(before) && after.Keys <= before.Keys
    requires forall id :: id in after ==> after[id].project == before[id].project
    requires forall id :: id in after ==> (Active(after[id]) ==> Active(before[id]))
    requires forall id :: id in after ==> (after[id].state.Running? ==> before[id].state.Running?)
    ensures Bounded(after)
  {
    SubsetSize(RunningIds(after), RunningIds(before));
    SubsetSize(ActiveIds(after), ActiveIds(before));
    forall p ensures ProjectBounded(after, p) {
      assert ProjectBounded(before, p);
      SubsetSize(ProjectIds(after, p), ProjectIds(before, p));
      SubsetSize(ProjectActiveIds(after, p), ProjectActiveIds(before, p));
    }
  }

  /** Replacing rows by rows nearer their end keeps the invariant. */
  lemma EndsKeep(t: Table, jobs: map<JobId, Job>, now: int)
    requires Inv(t, now)
    requires jobs.Keys == t.jobs.Keys
    requires forall id :: id in jobs ==> Ends(t.jobs[id], jobs[id]) && JobOk(jobs[id], now)
    ensures Inv(t.(jobs := jobs), now)
  {
    ShrinkBounded(t.jobs, jobs);
  }

  lemma PutKeeps(t: Table, id: JobId, k: Job, now: int)
    requires Inv(t, now)
    requires id in t.jobs && Ends(t.jobs[id], k) && JobOk(k, now)
    ensures Inv(Put(t, id, k), now)
  {
    EndsKeep(t, t.jobs[id := k], now);
  }

  // ---------- one row put ----------

  lemma RowsPut(t: Table, after: Table, id: JobId, k: Job, now: int)
    requires RowsOk(t, now) && JobOk(k, now) && after.jobs == t.jobs[id := k]
    ensures RowsOk(after, now)
  {
    hide JobOk;
  }

  predicate SameKeys(j: Job, k: Job) {
    k.project == j.project && k.owner == j.owner && k.key == j.key
  }

  lemma KeysPut(jobs: map<JobId, Job>, id: JobId, k: Job)
    requires KeysUnique(jobs)
    requires if id in jobs then SameKeys(jobs[id], k) else forall other :: other in jobs ==> !SameKeys(jobs[other], k)
    ensures KeysUnique(jobs[id := k])
  {
  }

  /** A row put has no token, or one that was not drawn before. */
  lemma FencedPut(t: Table, after: Table, id: JobId, k: Job)
    requires Fenced(t) && after.jobs == t.jobs[id := k] && id in after.drawnIds
    requires t.drawnIds <= after.drawnIds && t.drawnTokens <= after.drawnTokens
    requires k.token.Some? ==> k.token.value in after.drawnTokens && k.token.value !in t.drawnTokens
    ensures Fenced(after)
  {
  }

  lemma PublishedPut(t: Table, after: Table, id: JobId, k: Job)
    requires PublishedOk(t) && after.jobs == t.jobs[id := k] && after.published == t.published
    requires !k.state.Succeeded? && (id in t.jobs ==> !t.jobs[id].state.Succeeded?)
    ensures PublishedOk(after)
  {
    hide OutputsOk;
  }

  lemma PublishedAdd(t: Table, after: Table, id: JobId, k: Job, outputs: seq<Output>)
    requires PublishedOk(t) && after.jobs == t.jobs[id := k] && after.published == t.published[id := outputs]
    requires k.state.Succeeded? && OutputsOk(outputs)
    ensures PublishedOk(after)
  {
    hide OutputsOk;
  }

  lemma RowIsOk(t: Table, now: int, id: JobId)
    requires Inv(t, now) && id in t.jobs
    ensures JobOk(t.jobs[id], now)
  {
  }

  lemma DrawnHere(t: Table, id: JobId)
    requires Fenced(t) && id in t.jobs
    ensures id in t.drawnIds
  {
  }

  // ---------- each transaction ----------

  lemma InsertProject(jobs: map<JobId, Job>, id: JobId, j: Job, p: ProjectId)
    requires ProjectBounded(jobs, p) && id !in jobs
    requires j.project == p ==> |ProjectIds(jobs, p)| < MAX_PROJECT_JOBS && |ProjectActiveIds(jobs, p)| < MAX_PROJECT_ACTIVE
    ensures ProjectBounded(jobs[id := j], p)
  {
    SubsetSize(ProjectIds(jobs[id := j], p), ProjectIds(jobs, p) + if j.project == p then {id} else {});
    SubsetSize(ProjectActiveIds(jobs[id := j], p), ProjectActiveIds(jobs, p) + if j.project == p then {id} else {});
  }

  lemma BoundedInsert(t: Table, id: JobId, j: Job)
    requires Bounded(t.jobs) && !CapacityReached(t, j.project)
    requires id !in t.jobs && j.state.Queued?
    ensures Bounded(t.jobs[id := j])
  {
    var after := t.jobs[id := j];
    SubsetSize(RunningIds(after), RunningIds(t.jobs));
    SubsetSize(ActiveIds(after), ActiveIds(t.jobs) + {id});
    forall p ensures ProjectBounded(after, p) {
      assert ProjectBounded(t.jobs, p);
      InsertProject(t.jobs, id, j, p);
    }
  }

  lemma SubmitKeeps(t: Table, r: Submission, now: int)
    requires Inv(t, now) && r.id !in t.drawnIds
    ensures Inv(Submit(t, r, now).0, now)
  {
    var after := Submit(t, r, now).0;
    if after != t {
      var j := NewJob(r, now);
      assert after == t.(jobs := t.jobs[r.id := j], drawnIds := t.drawnIds + {r.id});
      assert !CapacityReached(t, r.project) && forall id :: id in t.jobs ==> !SameKeys(t.jobs[id], j);
      assert JobOk(j, now) && r.id !in t.jobs;
      hide Bounded, CapacityReached, Submit, JobOk, RowsOk, KeysUnique, Fenced, PublishedOk, Previous;
      BoundedInsert(t, r.id, j);
      RowsPut(t, after, r.id, j, now);
      KeysPut(t.jobs, r.id, j);
      FencedPut(t, after, r.id, j);
      PublishedPut(t, after, r.id, j);
    }
  }

  lemma CancelKeeps(t: Table, project: ProjectId, id: JobId, authorized: bool, now: int)
    requires Inv(t, now)
    ensures Inv(Cancel(t, project, id, authorized).0, now)
  {
    var after := Cancel(t, project, id, authorized).0;
    if after != t { PutKeeps(t, id, after.jobs[id], now); }
  }

  lemma DeleteKeeps(t: Table, project: ProjectId, id: JobId, authorized: bool, now: int)
    requires Inv(t, now)
    ensures Inv(Delete(t, project, id, authorized).0, now)
  {
    var after := Delete(t, project, id, authorized).0;
    if after != t {
      ShrinkBounded(t.jobs, after.jobs);
    }
  }

  lemma RecoverSomeKeeps(t: Table, ids: set<JobId>, now: int)
    requires Inv(t, now) && ids <= StaleIds(t.jobs, now)
    ensures Inv(t.(jobs := RecoverAll(t.jobs, ids, now)), now)
  {
    var jobs := RecoverAll(t.jobs, ids, now);
    hide Inv;
    forall id | id in jobs ensures Ends(t.jobs[id], jobs[id]) && JobOk(jobs[id], now) {
      RowIsOk(t, now, id);
    }
    hide JobOk, Ends;
    EndsKeep(t, jobs, now);
  }

  /** The batch limit on stale rows never truncates: at most four jobs run. */
  lemma StaleFitsBatch(t: Table, now: int)
    requires Inv(t, now)
    ensures |StaleIds(t.jobs, now)| <= MAX_RUNNING < BATCH
  {
    SubsetSize(StaleIds(t.jobs, now), RunningIds(t.jobs));
  }

  /** Nor does the batch limit on queued rows: at most 64 jobs are active. */
  lemma QueueFitsBatch(t: Table, scope: Scope, now: int)
    requires Inv(t, now)
    ensures |QueuedIds(t.jobs, scope)| <= BATCH
  {
    SubsetSize(QueuedIds(t.jobs, scope), ActiveIds(t.jobs));
  }

  lemma BoundedLease(jobs: map<JobId, Job>, id: JobId, j: Job)
    requires Bounded(jobs) && |RunningIds(jobs)| < MAX_RUNNING
    requires id in jobs && jobs[id].state.Queued? && j.state.Running? && j.project == jobs[id].project
    ensures Bounded(jobs[id := j])
  {
    var after := jobs[id := j];
    SubsetSize(RunningIds(after), RunningIds(jobs) + {id});
    SubsetSize(ActiveIds(after), ActiveIds(jobs));
    forall p ensures ProjectBounded(after, p) {
      assert ProjectBounded(jobs, p);
      SubsetSize(ProjectIds(after, p), ProjectIds(jobs, p));
      SubsetSize(ProjectActiveIds(after, p), ProjectActiveIds(jobs, p));
    }
  }

  lemma LeaseKeeps(t: Table, id: JobId, token: Token, now: int)
    requires Inv(t, now) && token !in t.drawnTokens
    requires id in t.jobs && t.jobs[id].state.Queued?
    requires |RunningIds(t.jobs)| < MAX_RUNNING
    ensures Inv(Put(t, id, Lease(t.jobs[id], token, now)).(drawnTokens := t.drawnTokens + {token}), now)
  {
    var j := t.jobs[id];
    var k := Lease(j, token, now);
    var after := Put(t, id, k).(drawnTokens := t.drawnTokens + {token});
    RowIsOk(t, now, id);
    hide Bounded, RunningIds, Lease, JobOk, RowsOk, KeysUnique, Fenced, PublishedOk;
    LeaseIsOk(j, token, now);
    BoundedLease(t.jobs, id, k);
    RowsPut(t, after, id, k, now);
    KeysPut(t.jobs, id, k);
    DrawnHere(t, id);
    FencedPut(t, after, id, k);
    PublishedPut(t, after, id, k);
  }

  lemma LeaseIsOk(j: Job, token: Token, now: int)
    requires JobOk(j, now) && j.state.Queued?
    ensures JobOk(Lease(j, token, now), now)
    ensures var k := Lease(j, token, now);
      && k.project == j.project && k.owner == j.owner && k.key == j.key
      && k.state.Running? && k.token == Some(token)
  {
  }

  lemma {:induction false} ScanKeeps(t: Table, rows: seq<JobId>, q: ClaimRequest, now: int)
    requires Inv(t, now) && q.token !in t.drawnTokens
    requires forall i :: 0 <= i < |rows| ==> rows[i] in t.jobs && t.jobs[rows[i]].state.Queued?
    requires forall i, k :: 0 <= i < k < |rows| ==> rows[i] != rows[k]
    requires |RunningIds(t.jobs)| < MAX_RUNNING
    ensures Inv(Scan(t, rows, q, now).0, now)
    decreases |rows|
  {
    if rows != [] {
      var id, j := rows[0], t.jobs[rows[0]];
      match Refusal(id, j, q, now)
      case Some(ended) =>
        PutKeeps(t, id, ended, now);
        SubsetSize(RunningIds(Put(t, id, ended).jobs), RunningIds(t.jobs));
        ScanKeeps(Put(t, id, ended), rows[1..], q, now);
      case None =>
        LeaseKeeps(t, id, q.token, now);
    }
  }

  /** The listing a claim scans: distinct queued rows of the scope, none cut off. */
  lemma ListingFacts(t: Table, scope: Scope, now: int) returns (rows: seq<JobId>)
    requires Inv(t, now)
    ensures forall id :: id in QueuedIds(t.jobs, scope) ==> id in t.jobs
    ensures rows == Ordered(t.jobs, QueuedIds(t.jobs, scope)) == Take(Ordered(t.jobs, QueuedIds(t.jobs, scope)), BATCH)
    ensures forall i :: 0 <= i < |rows| ==> rows[i] in t.jobs && t.jobs[rows[i]].state.Queued? && InScope(t.jobs[rows[i]], scope)
    ensures forall i, k :: 0 <= i < k < |rows| ==> rows[i] != rows[k] && Before(t.jobs, rows[i], rows[k])
    ensures forall id :: id in QueuedIds(t.jobs, scope) ==> id in rows
  {
    OrderedListing(t.jobs, QueuedIds(t.jobs, scope));
    QueueFitsBatch(t, scope, now);
    rows := Ordered(t.jobs, QueuedIds(t.jobs, scope));
    forall i | 0 <= i < |rows| ensures rows[i] in QueuedIds(t.jobs, scope) { assert rows[i] in rows; }
  }

  lemma ClaimKeeps(t: Table, q: ClaimRequest, now: int)
    requires Inv(t, now) && q.token !in t.drawnTokens
    ensures Inv(Claim(t, q, now).0, now)
  {
    var r := Recovered(t, now);
    RecoverSomeKeeps(t, StaleIds(t.jobs, now), now);
    if |RunningIds(r.jobs)| < MAX_RUNNING {
      var rows := ListingFacts(r, q.scope, now);
      ScanKeeps(r, rows, q, now);
    }
  }

  lemma OwnKeeps(t: Table, c: Ticket, now: int)
    requires Inv(t, now)
    ensures Inv(Own(t, c, now).0, now)
  {
    var after := Own(t, c, now).0;
    if after != t { PutKeeps(t, c.id, after.jobs[c.id], now); }
  }

  lemma ResolveKeeps(t: Table, c: Ticket, authorized: bool, now: int)
    requires Inv(t, now)
    ensures Inv(Resolve(t, c, authorized, now).0, now)
  {
    var after := Resolve(t, c, authorized, now).0;
    if after != t { PutKeeps(t, c.id, after.jobs[c.id], now); }
  }

  lemma RenewKeeps(t: Table, c: Ticket, authorized: bool, now: int)
    requires Inv(t, now)
    ensures Inv(Renew(t, c, authorized, now).0, now)
  {
    OwnKeeps(t, c, now);
    var after := Renew(t, c, authorized, now).0;
    if c.id in t.jobs { RowIsOk(t, now, c.id); }
    hide Inv;
    if Own(t, c, now).1 { PutKeeps(t, c.id, after.jobs[c.id], now); }
  }

  lemma FailKeeps(t: Table, c: Ticket, text: string, now: int)
    requires Inv(t, now)
    ensures Inv(Fail(t, c, text, now), now)
  {
    OwnKeeps(t, c, now);
    if Own(t, c, now).1 { PutKeeps(t, c.id, Fail(t, c, text, now).jobs[c.id], now); }
  }

  lemma {:induction false} NoObjectionIntact(outputs: seq<Output>, room: nat)
    requires FirstObjection(outputs, room) == None
    ensures |outputs| <= room && forall i :: 0 <= i < |outputs| ==> Intact(outputs[i])
    decreases |outputs|
  {
    if outputs != [] {
      NoObjectionIntact(outputs[1..], room - 1);
      forall i | 0 <= i < |outputs| ensures Intact(outputs[i]) {
        if i > 0 { assert outputs[i] == outputs[1..][i - 1]; }
      }
    }
  }

  /** For the counts a success is an end like any other. */
  lemma PublishKeeps(t: Table, id: JobId, outputs: seq<Output>, now: int)
    requires Inv(t, now) && OutputsOk(outputs)
    requires id in t.jobs && t.jobs[id].state.Running? && !t.jobs[id].cancelRequested
    ensures Inv(Publish(t, id, outputs), now)
  {
    var after := Publish(t, id, outputs);
    var k := after.jobs[id];
    RowIsOk(t, now, id);
    assert JobOk(k, now) && k.token == None;
    hide Bounded, RunningIds, JobOk, RowsOk, KeysUnique, Fenced, PublishedOk, OutputsOk;
    ShrinkBounded(t.jobs, after.jobs);
    RowsPut(t, after, id, k, now);
    KeysPut(t.jobs, id, k);
    DrawnHere(t, id);
    FencedPut(t, after, id, k);
    PublishedAdd(t, after, id, k, outputs);
  }

  lemma FinishKeeps(t: Table, c: Ticket, d: Delivery, now: int)
    requires Inv(t, now)
    ensures Inv(Finish(t, c, d, now).0, now)
  {
    OwnKeeps(t, c, now);
    if Own(t, c, now).1 {
      if t.jobs[c.id].cancelRequested {
        PutKeeps(t, c.id, Terminal(t.jobs[c.id], Cancelled, CANCELLED), now);
      } else if Objection(d) == None {
        NoObjectionIntact(d.outputs, d.room);
        PublishKeeps(t, c.id, d.outputs, now);
      }
    }
  }
}

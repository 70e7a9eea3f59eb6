/** What each transaction of the queue answers and leaves behind, told on rows and tokens. */
module NativeJobOutcomes {
  import opened NativeJobInvariants
  import opened NativeJobRuns
  import opened NativeJobs
  import opened Numbers
  import opened Wrappers

  // ---------- what stays ----------

  /** What was asked for when the job was submitted. */
  predicate SameOrder(j: Job, k: Job) {
    && k.project == j.project && k.kind == j.kind && k.input == j.input && k.digest == j.digest
    && k.owner == j.owner && k.key == j.key && k.request == j.request
    && k.createdAt == j.createdAt && k.expiresAt == j.expiresAt
  }

  /** At most the row of `id` differs, and no output is shown or hidden. */
  ghost predicate OnlyRow(t: Table, after: Table, id: JobId) {
    && after.jobs.Keys == t.jobs.Keys && after.published == t.published
    && after.drawnIds == t.drawnIds && after.drawnTokens == t.drawnTokens
    && forall other :: other in t.jobs && other != id ==> after.jobs[other] == t.jobs[other]
  }

  /** The row has ended in this way, and nobody holds it any more. */
  predicate EndedAs(j: Job, k: Job, state: State, code: Code) {
    && SameOrder(j, k) && k.attempts == j.attempts && k.cancelRequested == j.cancelRequested
    && k.state == state && k.error == Some(code) && k.token == None && k.claimUntil == 0
  }

  /** Where a requested cancellation comes before any failure. */
  predicate EndedOr(j: Job, k: Job, code: Code) {
    if j.cancelRequested then EndedAs(j, k, Cancelled, CANCELLED) else EndedAs(j, k, Failed, code)
  }

  predicate Owns(t: Table, project: ProjectId, id: JobId) {
    id in t.jobs && t.jobs[id].project == project
  }

  /** The token is that of the row's lease, which has not run out. */
  predicate Leased(t: Table, c: Ticket, now: int) {
    && Owns(t, c.project, c.id) && t.jobs[c.id].state == Running
    && t.jobs[c.id].token == Some(c.token) && now < t.jobs[c.id].claimUntil
  }

  // ---------- members of the project ----------

  lemma CancelOutcome(t: Table, project: ProjectId, id: JobId, authorized: bool)
    ensures var (after, r) := Cancel(t, project, id, authorized);
      if !authorized then after == t && r == Err(ACCESS_DENIED)
      else if !Owns(t, project, id) then after == t && r == Err(JOB_NOT_FOUND)
      else
        && r == Ok(()) && OnlyRow(t, after, id)
        && var (j, k) := (t.jobs[id], after.jobs[id]);
           && SameOrder(j, k) && k.attempts == j.attempts && k.error == j.error
           && (j.state == Queued ==> k.state == Cancelled && k.cancelRequested)
           && (j.state == Running ==> k.state == Running && k.cancelRequested && k.token == j.token && k.claimUntil == j.claimUntil)
           && (j.state != Queued && j.state != Running ==> k == j)
  {
  }

  lemma DeleteOutcome(t: Table, project: ProjectId, id: JobId, authorized: bool)
    ensures var (after, r) := Delete(t, project, id, authorized);
      if !authorized then after == t && r == Err(ACCESS_DENIED)
      else if !Owns(t, project, id) then after == t && r == Err(JOB_NOT_FOUND)
      else if t.jobs[id].state == Queued || t.jobs[id].state == Running then after == t && r == Err(JOB_ACTIVE)
      else
        && r == Ok(()) && id !in after.jobs && id !in after.published && after.jobs.Keys == t.jobs.Keys - {id}
        && (forall other :: other in after.jobs ==> after.jobs[other] == t.jobs[other])
        && (forall other :: other != id ==> (other in after.published <==> other in t.published))
        && forall other :: other in after.published ==> after.published[other] == t.published[other]
  {
  }

  /** A row of the same project, submitter and retry key. */
  predicate Repeats(j: Job, r: Submission) {
    j.project == r.project && j.owner == r.owner && j.key == r.key
  }

  predicate NoCapacity(t: Table, project: ProjectId) {
    || |set id | id in t.jobs && t.jobs[id].project == project| >= 32
    || |set id | id in t.jobs && t.jobs[id].project == project && (t.jobs[id].state == Queued || t.jobs[id].state == Running)| >= 2
    || |set id | id in t.jobs && (t.jobs[id].state == Queued || t.jobs[id].state == Running)| >= 64
  }

  lemma CapacityMeans(t: Table, project: ProjectId)
    ensures CapacityReached(t, project) <==> NoCapacity(t, project)
  {
    assert (set id | id in t.jobs && t.jobs[id].project == project) == ProjectIds(t.jobs, project);
    assert (set id | id in t.jobs && t.jobs[id].project == project && (t.jobs[id].state == Queued || t.jobs[id].state == Running))
        == ProjectActiveIds(t.jobs, project);
    assert (set id | id in t.jobs && (t.jobs[id].state == Queued || t.jobs[id].state == Running)) == ActiveIds(t.jobs);
  }

  /** A retry key already used answers with its job, or is refused for another request;
      a new one is refused for its first fault or for want of capacity, or becomes a queued
      row with ten minutes to live. */
  lemma SubmitOutcome(t: Table, r: Submission, now: int)
    requires Inv(t, now) && r.id !in t.drawnIds
    ensures var (after, reply) := Submit(t, r, now);
      if !r.authorized then after == t && reply == Err(ACCESS_DENIED)
      else if exists id :: id in t.jobs && Repeats(t.jobs[id], r) then
        && after == t
        && forall id :: id in t.jobs && Repeats(t.jobs[id], r) ==>
             reply == if t.jobs[id].request == r.request then Ok(id) else Err(IDEMPOTENCY_CONFLICT)
      else if r.refusal.Some? then after == t && reply == Err(r.refusal.value)
      else if NoCapacity(t, r.project) then after == t && reply == Err(JOB_CAPACITY)
      else
        && reply == Ok(r.id) && r.id !in t.jobs && r.id in after.jobs && after.drawnIds == t.drawnIds + {r.id}
        && after.jobs.Keys == t.jobs.Keys + {r.id} && after.published == t.published && after.drawnTokens == t.drawnTokens
        && (forall other :: other in t.jobs ==> after.jobs[other] == t.jobs[other])
        && IsNew(after.jobs[r.id], r, now)
  {
    CapacityMeans(t, r.project);
    PreviousMeans(t, r, now);
    RowsDrawn(t, now);
    hide Inv, Previous, CapacityReached, NoCapacity;
  }

  lemma PreviousMeans(t: Table, r: Submission, now: int)
    requires Inv(t, now)
    ensures Previous(t, r).Some? <==> exists id :: id in t.jobs && Repeats(t.jobs[id], r)
    ensures Previous(t, r).Some? ==> Previous(t, r).value in t.jobs
    ensures forall id :: id in t.jobs && Repeats(t.jobs[id], r) ==> Previous(t, r) == Some(id)
  {
    forall id | id in t.jobs && Repeats(t.jobs[id], r) ensures Previous(t, r) == Some(id) {
      var first := Previous(t, r).value;
      assert SameKey(t.jobs[first], r) && SameKey(t.jobs[id], r);
    }
  }

  lemma RowsDrawn(t: Table, now: int)
    requires Inv(t, now)
    ensures t.jobs.Keys <= t.drawnIds
  {
  }

  predicate IsNew(j: Job, r: Submission, now: int) {
    && j.project == r.project && j.kind == r.kind && j.input == r.input && j.digest == r.digest
    && j.owner == r.owner && j.key == r.key && j.request == r.request
    && j.createdAt == now && j.expiresAt == now + 600
    && j.state == Queued && j.attempts == 0 && !j.cancelRequested && j.token == None && j.error == None
  }

  // ---------- the holder of a lease ----------

  /** An open claim: leased, within its deadline, nobody wants it cancelled. */
  predicate Open(t: Table, c: Ticket, now: int) {
    Leased(t, c, now) && now < t.jobs[c.id].expiresAt && !t.jobs[c.id].cancelRequested
  }

  /** The job of a lease ends for the first reason that applies: it is to be cancelled, it is
      past its deadline, or `code`. */
  ghost predicate Stopped(t: Table, after: Table, c: Ticket, now: int, code: Code)
    requires c.id in t.jobs
  {
    && OnlyRow(t, after, c.id) && c.id in after.jobs
    && EndedOr(t.jobs[c.id], after.jobs[c.id], if t.jobs[c.id].expiresAt <= now then JOB_DEADLINE_EXCEEDED else code)
  }

  /** Renewing succeeds exactly for an open claim with access. Then the lease lasts 20 seconds
      from now, but not past the job's deadline, and nothing else has changed. */
  lemma RenewOutcome(t: Table, c: Ticket, authorized: bool, now: int)
    ensures var (after, ok) := Renew(t, c, authorized, now);
      && (ok <==> Open(t, c, now) && authorized)
      && (!ok ==> if Leased(t, c, now) then Stopped(t, after, c, now, ACCESS_CHANGED) else after == t)
      && (ok ==>
           && OnlyRow(t, after, c.id) && c.id in after.jobs
           && after.jobs[c.id].(claimUntil := t.jobs[c.id].claimUntil) == t.jobs[c.id]
           && forall u :: now <= u ==> (Leased(after, c, u) <==> u < now + 20 && u < t.jobs[c.id].expiresAt))
  {
  }

  /** The resolver confirms exactly an open claim that is what its ticket says, with access. */
  lemma ResolveOutcome(t: Table, c: Ticket, authorized: bool, now: int)
    ensures var (after, ok) := Resolve(t, c, authorized, now);
      var mine := Leased(t, c, now) && t.jobs[c.id].kind == c.kind && t.jobs[c.id].input == c.input && t.jobs[c.id].digest == c.digest;
      && (ok <==> mine && Open(t, c, now) && authorized)
      && (if !ok && mine then Stopped(t, after, c, now, ACCESS_CHANGED) else after == t)
  {
  }

  /** A worker's failure ends the row it holds, and nothing else. */
  lemma FailOutcome(t: Table, c: Ticket, text: string, now: int)
    ensures var after := Fail(t, c, text, now);
      if Leased(t, c, now) then Stopped(t, after, c, now, Reported(text)) else after == t
  {
  }

  // ---------- publication ----------

  predicate Deliverable(d: Delivery) {
    && d.authorized && d.bound && 1 <= |d.outputs| <= 8 && TotalBytes(d.outputs) <= 32 * 1024 * 1024
    && |d.outputs| <= d.room
    && forall i :: 0 <= i < |d.outputs| ==> |d.outputs[i].bytes| > 0 && d.outputs[i].digest == Sha256(d.outputs[i].bytes)
  }

  /** The outputs before i are stored; output i is not. */
  predicate FirstRefused(outputs: seq<Output>, room: nat, i: nat, error: Error) {
    && i < |outputs| && i <= room
    && (forall k :: 0 <= k < i ==> |outputs[k].bytes| > 0 && outputs[k].digest == Sha256(outputs[k].bytes))
    && if |outputs[i].bytes| == 0 || outputs[i].digest != Sha256(outputs[i].bytes) then error == JOB_OUTPUT_INVALID
       else i == room && error == ARTIFACT_CAPACITY
  }

  lemma {:induction false} ObjectionMeans(outputs: seq<Output>, room: nat)
    ensures FirstObjection(outputs, room).Some? ==> exists i: nat :: FirstRefused(outputs, room, i, FirstObjection(outputs, room).value)
    ensures FirstObjection(outputs, room).None? <==>
      |outputs| <= room && forall i :: 0 <= i < |outputs| ==> |outputs[i].bytes| > 0 && outputs[i].digest == Sha256(outputs[i].bytes)
    decreases |outputs|
  {
    if outputs == [] {
    } else if !Intact(outputs[0]) || room == 0 {
      assert FirstRefused(outputs, room, 0, FirstObjection(outputs, room).value);
    } else {
      ObjectionMeans(outputs[1..], room - 1);
      var e := FirstObjection(outputs, room);
      if e.Some? {
        var i: nat :| FirstRefused(outputs[1..], room - 1, i, e.value);
        assert FirstRefused(outputs, room, i + 1, e.value);
      }
      assert forall i :: 0 < i < |outputs| ==> outputs[i] == outputs[1..][i - 1];
    }
  }

  /** An owned job publishes exactly what it is given if all of it can be delivered; else
      nothing changes and the first fault is the answer. A job that is to be cancelled or past
      its deadline ends instead. */
  lemma FinishOutcome(t: Table, c: Ticket, d: Delivery, now: int)
    ensures var (after, r) := Finish(t, c, d, now);
      if !Leased(t, c, now) then after == t && r == Ok(false)
      else if !Open(t, c, now) then Stopped(t, after, c, now, CANCELLED) && r == Ok(false)
      else if !Deliverable(d) then
        && after == t && r.Err?
        && (!d.authorized ==> r.error == ACCESS_DENIED)
        && (d.authorized && !d.bound ==> r.error == JOB_OUTPUT_INVALID)
        && (d.authorized && d.bound ==>
             if |d.outputs| == 0 || |d.outputs| > 8 || TotalBytes(d.outputs) > 32 * 1024 * 1024 then r.error == JOB_OUTPUT_SIZE
             else exists i: nat :: FirstRefused(d.outputs, d.room, i, r.error))
      else
        && r == Ok(true) && c.id in after.jobs && after.published == t.published[c.id := d.outputs]
        && OnlyRow(t, after.(published := t.published), c.id)
        && var (j, k) := (t.jobs[c.id], after.jobs[c.id]);
           SameOrder(j, k) && k.attempts == j.attempts && k.state == Succeeded && k.token == None && k.claimUntil == 0 && k.error == None
  {
    ObjectionMeans(d.outputs, d.room);
  }

  // ---------- claims ----------

  /** Waiting in the queue, or back in it because its first lease ran out. */
  predicate Waiting(j: Job, now: int) {
    || j.state == Queued
    || (j.state == Running && j.claimUntil <= now && j.attempts < 2 && !j.cancelRequested && now < j.expiresAt)
  }

  predicate Asked(j: Job, scope: Scope) {
    match scope
    case Local(_) => true
    case Remote(projects, kinds) => j.project in projects && j.kind in kinds
  }

  /** The claimer may have this row. */
  predicate Eligible(t: Table, q: ClaimRequest, now: int, id: JobId) {
    && id in t.jobs && Waiting(t.jobs[id], now) && Asked(t.jobs[id], q.scope)
    && now < t.jobs[id].expiresAt && id in q.live && (q.scope.Local? ==> t.jobs[id].kind in q.scope.available)
  }

  predicate Older(t: Table, a: JobId, b: JobId) {
    a in t.jobs && b in t.jobs &&
    (t.jobs[a].createdAt < t.jobs[b].createdAt || (t.jobs[a].createdAt == t.jobs[b].createdAt && a < b))
  }

  /** Four jobs run under leases that last. */
  predicate Busy(t: Table, now: int) {
    |set id | id in t.jobs && t.jobs[id].state == Running && now < t.jobs[id].claimUntil| >= 4
  }

  predicate Stale(j: Job, now: int) {
    j.state == Running && j.claimUntil <= now
  }

  predicate BackInQueue(j: Job, k: Job) {
    SameOrder(j, k) && k.attempts == j.attempts && !k.cancelRequested && k.state == Queued && k.token == None && k.error == j.error
  }

  /** What recovery makes of a row. */
  predicate RecoveredAs(j: Job, r: Job, now: int) {
    if !Stale(j, now) then r == j else if Waiting(j, now) then BackInQueue(j, r) else EndedOr(j, r, LEASE_EXPIRED)
  }

  lemma RecoveredJob(j: Job, now: int)
    requires JobOk(j, now)
    ensures RecoveredAs(j, if NativeJobs.Stale(j, now) then Recover(j, now) else j, now)
    ensures j.state == Queued ==> !j.cancelRequested && j.token == None
  {
  }

  lemma RecoveredRow(t: Table, now: int, id: JobId)
    requires Inv(t, now) && id in t.jobs
    ensures id in Recovered(t, now).jobs && RecoveredAs(t.jobs[id], Recovered(t, now).jobs[id], now)
    ensures SameOrder(t.jobs[id], Recovered(t, now).jobs[id]) && Recovered(t, now).jobs[id].attempts == t.jobs[id].attempts
    ensures Recovered(t, now).jobs[id].cancelRequested == t.jobs[id].cancelRequested
    ensures Recovered(t, now).jobs[id].state == Queued <==> Waiting(t.jobs[id], now)
    ensures Recovered(t, now).jobs[id].state == Queued ==> !Recovered(t, now).jobs[id].cancelRequested && Recovered(t, now).jobs[id].token == None
  {
    RowIsOk(t, now, id);
    RecoveredJob(t.jobs[id], now);
    hide Inv, Recover, JobOk;
  }

  lemma BusyMeans(t: Table, now: int)
    requires Inv(t, now)
    ensures |RunningIds(Recovered(t, now).jobs)| >= MAX_RUNNING <==> Busy(t, now)
  {
    var running := set id | id in t.jobs && t.jobs[id].state == Running && now < t.jobs[id].claimUntil;
    forall id ensures id in RunningIds(Recovered(t, now).jobs) <==> id in running {
      if id in t.jobs { RecoveredRow(t, now, id); }
    }
    assert RunningIds(Recovered(t, now).jobs) == running;
  }

  lemma EligibleMeans(t: Table, q: ClaimRequest, now: int, id: JobId)
    requires Inv(t, now)
    ensures Claimable(Recovered(t, now), q, now, id) <==> Eligible(t, q, now, id)
  {
    hide Inv;
    if id in t.jobs { RecoveredRow(t, now, id); }
  }

  lemma OlderMeans(t: Table, now: int, a: JobId, b: JobId)
    requires Inv(t, now) && a in t.jobs && b in t.jobs
    ensures Before(Recovered(t, now).jobs, a, b) <==> Older(t, a, b)
  {
    RecoveredRow(t, now, a);
    RecoveredRow(t, now, b);
  }

  /** A claim is granted exactly when a slot is free and some row is eligible. It is the
      oldest such row, held under the fresh token for 20 seconds from now. */
  lemma ClaimTakesOldest(t: Table, q: ClaimRequest, now: int)
    requires Inv(t, now) && q.token !in t.drawnTokens
    ensures var (after, ticket) := Claim(t, q, now);
      && (ticket.Some? <==> !Busy(t, now) && exists id :: Eligible(t, q, now, id))
      && (ticket.Some? ==>
           var c := ticket.value;
           && Eligible(t, q, now, c.id) && (forall id :: Eligible(t, q, now, id) && id != c.id ==> Older(t, c.id, id))
           && c.id in after.jobs && SameOrder(t.jobs[c.id], after.jobs[c.id])
           && c == Ticket(c.id, q.token, t.jobs[c.id].project, t.jobs[c.id].kind, t.jobs[c.id].input, t.jobs[c.id].digest)
           && after.jobs[c.id].attempts == t.jobs[c.id].attempts + 1 && !after.jobs[c.id].cancelRequested
           && forall u :: Leased(after, c, u) <==> u < now + 20)
  {
    hide Inv, Claim, Recovered, Busy, Claimable, Eligible, Older, RecoveredAs, Lease;
    ClaimOutcome(t, q, now);
    BusyMeans(t, now);
    forall id ensures Claimable(Recovered(t, now), q, now, id) <==> Eligible(t, q, now, id) { EligibleMeans(t, q, now, id); }
    var (after, ticket) := Claim(t, q, now);
    if ticket.Some? {
      LeasedIsEldest(t, after, q, now, ticket.value.id);
    }
  }

  lemma LeasedIsEldest(t: Table, after: Table, q: ClaimRequest, now: int, first: JobId)
    requires Inv(t, now) && Leases(Recovered(t, now), after, q, now, first)
    ensures Eligible(t, q, now, first) && first in after.jobs && first in Recovered(t, now).jobs
    ensures forall id :: Eligible(t, q, now, id) && id != first ==> Older(t, first, id)
    ensures var (j, c) := (t.jobs[first], TicketOf(first, Recovered(t, now).jobs[first], q.token));
      && c == Ticket(first, q.token, j.project, j.kind, j.input, j.digest)
      && SameOrder(j, after.jobs[first]) && after.jobs[first].attempts == j.attempts + 1 && !after.jobs[first].cancelRequested
      && forall u :: Leased(after, c, u) <==> u < now + 20
  {
    hide Inv, Recovered, Refusal, Eligible, Older, RecoveredAs;
    EligibleMeans(t, q, now, first);
    EligibleIsThere(t, q, now, first);
    RecoveredRow(t, now, first);
    LeasedRow(Recovered(t, now), after, q, now, first, first);
    forall id | Eligible(t, q, now, id) && id != first ensures Older(t, first, id) {
      EligibleMeans(t, q, now, id);
      EligibleIsThere(t, q, now, id);
      OlderMeans(t, now, first, id);
    }
  }

  lemma EligibleIsThere(t: Table, q: ClaimRequest, now: int, id: JobId)
    requires Eligible(t, q, now, id)
    ensures id in t.jobs
  {
  }

  /** Why a row that is asked for cannot be had. */
  function TurnedAway(j: Job, id: JobId, q: ClaimRequest, now: int): Code {
    if j.expiresAt <= now then QUEUE_EXPIRED else if id !in q.live then ACCESS_CHANGED else NATIVE_UNAVAILABLE
  }

  /** Every row that is not granted: expired leases go back to the queue or end; waiting rows
      older than the one granted, which could not be had, end with the reason; others stay. */
  lemma ClaimLeavesOthers(t: Table, q: ClaimRequest, now: int, id: JobId)
    requires Inv(t, now) && q.token !in t.drawnTokens && id in t.jobs
    requires Claim(t, q, now).1.Some? ==> Claim(t, q, now).1.value.id in t.jobs && id != Claim(t, q, now).1.value.id
    ensures var (after, ticket) := Claim(t, q, now);
      && id in after.jobs
      && var (j, k) := (t.jobs[id], after.jobs[id]);
         if !Busy(t, now) && Waiting(j, now) && Asked(j, q.scope) && (ticket.None? || Older(t, id, ticket.value.id))
         then EndedAs(j, k, Failed, TurnedAway(j, id, q, now))
         else RecoveredAs(j, k, now)
  {
    hide Inv, Claim, Recovered, Busy, Older, RecoveredAs, Refusal, Leases, LeasesNone;
    ClaimOutcome(t, q, now);
    BusyMeans(t, now);
    RecoveredRow(t, now, id);
    var (r, after, ticket) := (Recovered(t, now), Claim(t, q, now).0, Claim(t, q, now).1);
    if !Busy(t, now) {
      if ticket.Some? {
        OlderMeans(t, now, id, ticket.value.id);
        RecoveredRow(t, now, ticket.value.id);
        LeasesMeans(r, after, q, now, ticket.value.id, id);
      } else {
        LeasesNoneMeans(r, after, q, now, id);
      }
      if Waiting(t.jobs[id], now) && Asked(t.jobs[id], q.scope) && Refused(r, after, q, now, id) {
        RefusedMeans(t, r, after, q, now, id);
      }
    }
  }

  lemma LeasesMeans(r: Table, after: Table, q: ClaimRequest, now: int, first: JobId, id: JobId)
    requires Leases(r, after, q, now, first) && id in r.jobs && first in r.jobs && id != first
    ensures id in after.jobs
    ensures if r.jobs[id].state == Queued && Asked(r.jobs[id], q.scope) && Before(r.jobs, id, first) then Refused(r, after, q, now, id)
            else after.jobs[id] == r.jobs[id]
  {
    hide Refusal;
  }

  lemma LeasesNoneMeans(r: Table, after: Table, q: ClaimRequest, now: int, id: JobId)
    requires LeasesNone(r, after, q, now) && id in r.jobs
    ensures id in after.jobs
    ensures if r.jobs[id].state == Queued && Asked(r.jobs[id], q.scope) then Refused(r, after, q, now, id) else after.jobs[id] == r.jobs[id]
  {
    hide Refusal;
  }

  lemma RefusedMeans(t: Table, r: Table, after: Table, q: ClaimRequest, now: int, id: JobId)
    requires id in t.jobs && id in r.jobs && id in after.jobs && Refused(r, after, q, now, id)
    requires SameOrder(t.jobs[id], r.jobs[id]) && r.jobs[id].attempts == t.jobs[id].attempts && !r.jobs[id].cancelRequested
    requires t.jobs[id].cancelRequested == r.jobs[id].cancelRequested
    ensures EndedAs(t.jobs[id], after.jobs[id], Failed, TurnedAway(t.jobs[id], id, q, now))
  {
  }
}

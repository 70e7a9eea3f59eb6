/** What one answer of the queue means for the rest of a run. */
module NativeJobFates {
  import opened NativeJobInvariants
  import opened NativeJobOutcomes
  import opened NativeJobRuns
  import opened NativeJobSafety
  import opened NativeJobs
  import opened Numbers
  import opened Wrappers

  // ---------- cancellation ----------

  /** Whoever may write to the project and cancels an active job has the last word: from then
      on the job is gone, cancelled, or running with the request on it; it never shows an
      output, and no step publishes for it. */
  lemma CancelledForGood(run: Run, i: nat, k: nat, project: ProjectId, id: JobId)
    requires Legal(run) && i < k <= |run| && run[i].op == CancelOp(project, id, true)
    requires Owns(StateAt(run, i), project, id)
    requires StateAt(run, i).jobs[id].state == Queued || StateAt(run, i).jobs[id].state == Running
    ensures var t := StateAt(run, k);
      && id !in t.published
      && (id in t.jobs ==> t.jobs[id].state == Cancelled || (t.jobs[id].state == Running && t.jobs[id].cancelRequested))
    ensures k < |run| ==> !(EventAt(run, k).Publication? && EventAt(run, k).id == id)
  {
    CancelOutcome(StateAt(run, i), project, id, true);
    assert StateAt(run, i + 1).jobs[id].cancelRequested;
    hide Step, EventOf, StateAt, EventAt, Legal, Cancel;
    CancellationWins(run, i + 1, k, id);
    ShownAt(run, k - 1, id);
    if k < |run| && EventAt(run, k).Publication? { PublicationIsFenced(run, k); }
  }

  // ---------- leases ----------

  predicate ByHolder(op: Op, c: Ticket) {
    (op.ResolveOp? || op.RenewOp? || op.FinishOp? || op.FailOp?) && op.c.id == c.id && op.c.token == c.token
  }

  /** The holder's row is as it was, but for a request to cancel. */
  predicate SameLease(t: Table, after: Table, c: Ticket) {
    && c.id in t.jobs && c.id in after.jobs
    && after.jobs[c.id].(cancelRequested := t.jobs[c.id].cancelRequested) == t.jobs[c.id]
  }

  lemma OtherHolders(t: Table, op: Op, now: int, c: Ticket)
    requires Leased(t, c, now) && (op.ResolveOp? || op.RenewOp? || op.FinishOp? || op.FailOp?) && !ByHolder(op, c)
    ensures SameLease(t, Step(t, op, now), c)
  {
    match op
    case ResolveOp(h, authorized) => ResolveOutcome(t, h, authorized, now);
    case RenewOp(h, authorized) => RenewOutcome(t, h, authorized, now);
    case FinishOp(h, d) => FinishOutcome(t, h, d, now);
    case FailOp(h, text) => FailOutcome(t, h, text, now);
    hide Resolve, Renew, Finish, Fail, EndedOr, Deliverable, FirstRefused;
  }

  lemma ClaimsSpareLeases(t: Table, q: ClaimRequest, now: int, c: Ticket)
    requires Inv(t, now) && q.token !in t.drawnTokens && Leased(t, c, now)
    ensures SameLease(t, Claim(t, q, now).0, c)
  {
    hide Inv, Claim, Busy, EndedAs, EndedOr, Older;
    ClaimTakesOldest(t, q, now);
    ClaimLeavesOthers(t, q, now, c.id);
  }

  lemma LeaseStays(t: Table, op: Op, now: int, c: Ticket)
    requires Inv(t, now) && Fresh(t, op) && Leased(t, c, now) && !ByHolder(op, c)
    ensures SameLease(t, Step(t, op, now), c)
  {
    RowsDrawn(t, now);
    hide Inv, Claim, Resolve, Renew, Finish, Fail, Submit, Cancel, Delete, Leased;
    match op
    case SubmitOp(r) =>
      SubmitOutcome(t, r, now);
    case CancelOp(project, id, authorized) => CancelOutcome(t, project, id, authorized);
    case DeleteOp(project, id, authorized) => DeleteOutcome(t, project, id, authorized);
    case ClaimOp(q) => ClaimsSpareLeases(t, q, now, c);
    case _ => OtherHolders(t, op, now, c);
  }

  /** Nobody but the holder, the clock or a step of its own ends a lease. */
  lemma {:induction false} LeaseHolds(run: Run, i: nat, k: nat, c: Ticket)
    requires Legal(run) && i <= k < |run| && Leased(StateAt(run, i), c, run[i].at)
    requires run[k].at < StateAt(run, i).jobs[c.id].claimUntil
    requires forall m :: i <= m < k ==> !ByHolder(run[m].op, c)
    ensures SameLease(StateAt(run, i), StateAt(run, k), c) && Leased(StateAt(run, k), c, run[k].at)
    decreases k
  {
    hide Step, EventOf;
    if i < k {
      LeaseHolds(run, i, k - 1, c);
      Reachable(run, k - 1, run[k - 1].at);
      assert FreshAt(run, k - 1);
      LeaseStays(StateAt(run, k - 1), run[k - 1].op, run[k - 1].at, c);
    }
  }

  /** A worker that is told its renewal went through holds the job for 20 seconds more, up to
      the job's deadline, unless it gives it up itself. */
  lemma RenewalHolds(run: Run, i: nat, k: nat, c: Ticket, authorized: bool)
    requires Legal(run) && i < k < |run| && run[i].op == RenewOp(c, authorized)
    requires Renew(StateAt(run, i), c, authorized, run[i].at).1 && c.id in StateAt(run, i).jobs
    requires run[k].at < run[i].at + 20 && run[k].at < StateAt(run, i).jobs[c.id].expiresAt
    requires forall m :: i < m < k ==> !ByHolder(run[m].op, c)
    ensures Leased(StateAt(run, k), c, run[k].at)
  {
    var t := StateAt(run, i);
    RenewOutcome(t, c, authorized, run[i].at);
    assert StateAt(run, i + 1) == Renew(t, c, authorized, run[i].at).0;
    assert run[i].at <= run[i + 1].at <= run[k].at;
    assert Leased(StateAt(run, i + 1), c, run[i + 1].at) && Leased(StateAt(run, i + 1), c, run[k].at);
    hide Renew, StateAt, Step;
    LeaseHolds(run, i + 1, k, c);
  }

  /** So does the worker that was just given the job. */
  lemma ClaimHolds(run: Run, i: nat, k: nat, q: ClaimRequest, c: Ticket)
    requires Legal(run) && i < k < |run| && run[i].op == ClaimOp(q)
    requires Claim(StateAt(run, i), q, run[i].at).1 == Some(c)
    requires run[k].at < run[i].at + 20
    requires forall m :: i < m < k ==> !ByHolder(run[m].op, c)
    ensures Leased(StateAt(run, k), c, run[k].at)
  {
    Reachable(run, i, run[i].at);
    assert FreshAt(run, i);
    ClaimTakesOldest(StateAt(run, i), q, run[i].at);
    assert StateAt(run, i + 1) == Claim(StateAt(run, i), q, run[i].at).0;
    assert run[i].at <= run[i + 1].at <= run[k].at;
    hide Claim, StateAt, Step, Inv;
    assert Leased(StateAt(run, i + 1), c, run[i + 1].at) && Leased(StateAt(run, i + 1), c, run[k].at);
    LeaseHolds(run, i + 1, k, c);
  }

  // ---------- retries ----------

  lemma {:induction false} OrderStays(run: Run, i: nat, k: nat, id: JobId)
    requires Legal(run) && i <= k <= |run| && id in StateAt(run, i).jobs && id in StateAt(run, i).drawnIds
    ensures id in StateAt(run, k).drawnIds
    ensures id in StateAt(run, k).jobs ==> SameOrder(StateAt(run, i).jobs[id], StateAt(run, k).jobs[id])
    decreases k
  {
    hide Step, EventOf, Legal, EventAt, JobOk;
    if i < k {
      OrderStays(run, i, k - 1, id);
      RowAt(run, k - 1, id);
    }
  }

  /** A submission repeated under its retry key finds the job it made, for as long as that
      exists, and another request under the key is refused; neither changes anything. */
  lemma RetryFindsJob(run: Run, i: nat, k: nat, r: Submission, again: Submission, id: JobId)
    requires Legal(run) && i < k < |run| && run[i].op == SubmitOp(r) && run[k].op == SubmitOp(again)
    requires Submit(StateAt(run, i), r, run[i].at).1 == Ok(id)
    requires again.authorized && again.project == r.project && again.owner == r.owner && again.key == r.key
    requires id in StateAt(run, k).jobs
    ensures Submit(StateAt(run, k), again, run[k].at) ==
      (StateAt(run, k), if again.request == r.request then Ok(id) else Err(IDEMPOTENCY_CONFLICT))
  {
    var t := StateAt(run, i);
    Reachable(run, i, run[i].at);
    assert FreshAt(run, i) && FreshAt(run, k);
    SubmitOutcome(t, r, run[i].at);
    RowsDrawn(t, run[i].at);
    assert StateAt(run, i + 1) == Submit(t, r, run[i].at).0;
    hide Submit, StateAt, Step, Inv, NoCapacity;
    var made := StateAt(run, i + 1);
    assert id in made.jobs && Repeats(made.jobs[id], r) && made.jobs[id].request == r.request && id in made.drawnIds;
    OrderStays(run, i + 1, k, id);
    Reachable(run, k, run[k].at);
    assert Repeats(StateAt(run, k).jobs[id], again);
    SubmitOutcome(StateAt(run, k), again, run[k].at);
  }
}

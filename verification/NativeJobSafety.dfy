/** Safety of the job queue over whole runs from the empty table. */
module NativeJobSafety {
  import opened Wrappers
  import opened NativeJobs
  import opened NativeJobInvariants
  import opened NativeJobRuns

  datatype Timed = Timed(op: Op, at: int)

  type Run = seq<Timed>

  ghost function StateAt(run: Run, i: nat): Table
    requires i <= |run|
  {
    if i == 0 then EMPTY else Step(StateAt(run, i - 1), run[i - 1].op, run[i - 1].at)
  }

  ghost function EventAt(run: Run, i: nat): Event
    requires i < |run|
  {
    EventOf(StateAt(run, i), run[i].op, run[i].at)
  }

  ghost predicate FreshAt(run: Run, i: nat)
    requires i < |run|
  {
    Fresh(StateAt(run, i), run[i].op)
  }

  /** The clock never goes back and random draws never repeat; nothing else is asked of a run. */
  ghost predicate Legal(run: Run) {
    && (forall i :: 0 <= i < |run| ==> FreshAt(run, i))
    && (forall i, k :: 0 <= i <= k < |run| ==> run[i].at <= run[k].at)
  }

  // ---------- every reachable table ----------

  lemma {:induction false} Reachable(run: Run, i: nat, now: int)
    requires Legal(run) && i <= |run| && (i > 0 ==> run[i - 1].at <= now)
    ensures Inv(StateAt(run, i), now)
  {
    hide Step, EventOf;
    if i == 0 {
      assert RunningIds(EMPTY.jobs) == {} && ActiveIds(EMPTY.jobs) == {};
      forall p ensures ProjectBounded(EMPTY.jobs, p) {
        assert ProjectIds(EMPTY.jobs, p) == {} && ProjectActiveIds(EMPTY.jobs, p) == {};
      }
    } else {
      Reachable(run, i - 1, run[i - 1].at);
      assert FreshAt(run, i - 1);
      StepKeeps(StateAt(run, i - 1), run[i - 1].op, run[i - 1].at);
      InvLater(StateAt(run, i), run[i - 1].at, now);
    }
  }

  lemma StepAt(run: Run, i: nat)
    requires Legal(run) && i < |run|
    ensures Inv(StateAt(run, i), run[i].at)
    ensures StepOk(StateAt(run, i), StateAt(run, i + 1), EventAt(run, i))
  {
    hide Step, EventOf;
    Reachable(run, i, run[i].at);
    assert FreshAt(run, i);
    StepIsOk(StateAt(run, i), run[i].op, run[i].at);
  }

  /** Step i as one row sees it. */
  lemma RowAt(run: Run, i: nat, id: JobId)
    requires Legal(run) && i < |run|
    ensures var (before, after, e) := (StateAt(run, i), StateAt(run, i + 1), EventAt(run, i));
      && before.jobs.Keys <= before.drawnIds <= after.drawnIds && after.jobs.Keys <= after.drawnIds
      && (id in after.jobs ==> JobOk(after.jobs[id], run[i].at))
      && (id in after.jobs && id !in before.jobs ==> id !in before.drawnIds && after.jobs[id].state.Queued? && after.jobs[id].attempts == 0)
      && (id in after.jobs && id in before.jobs ==> RowOk(before, after, e, id))
      && (e.Claimed? && e.id == id ==> id in before.jobs && id in after.jobs)
  {
    StepAt(run, i);
    Reachable(run, i + 1, run[i].at);
    KeysDrawn(StateAt(run, i), run[i].at);
    KeysDrawn(StateAt(run, i + 1), run[i].at);
    hide Step, EventOf, StateAt, EventAt, Legal, Inv;
    if id in StateAt(run, i + 1).jobs { RowIsOk(StateAt(run, i + 1), run[i].at, id); }
  }

  lemma KeysDrawn(t: Table, now: int)
    requires Inv(t, now)
    ensures t.jobs.Keys <= t.drawnIds
  {
  }

  lemma ShownAt(run: Run, i: nat, id: JobId)
    requires Legal(run) && i < |run|
    ensures var (before, after, e) := (StateAt(run, i), StateAt(run, i + 1), EventAt(run, i));
      && (id in after.published <==> id in after.jobs && after.jobs[id].state.Succeeded?)
      && (e.Publication? && e.id == id ==> id in before.jobs && id in after.published && after.published[id] == e.outputs)
      && (id in after.published && !(e.Publication? && e.id == id) ==> id in before.published && after.published[id] == before.published[id])
  {
    StepAt(run, i);
    Reachable(run, i + 1, run[i].at);
    hide Step, EventOf, StateAt, EventAt, Legal;
  }

  lemma {:induction false} DrawnGrows(run: Run, i: nat, k: nat)
    requires Legal(run) && i <= k <= |run|
    ensures StateAt(run, i).drawnIds <= StateAt(run, k).drawnIds
    ensures StateAt(run, i).drawnTokens <= StateAt(run, k).drawnTokens
    decreases k - i
  {
    hide Step, EventOf;
    if i < k {
      StepAt(run, k - 1);
      DrawnGrows(run, i, k - 1);
    }
  }

  // ---------- fencing ----------

  ghost predicate ClaimsAt(run: Run, i: nat, id: JobId)
    requires i < |run|
  {
    EventAt(run, i).Claimed? && EventAt(run, i).id == id
  }

  /** Of all claims of `id` before step i, the last was step k and drew `token`. */
  ghost predicate LatestClaim(run: Run, i: nat, k: nat, id: JobId, token: Token)
    requires i <= |run|
  {
    && k < i && EventAt(run, k) == Claimed(id, token)
    && forall m :: k < m < i ==> !ClaimsAt(run, m, id)
  }

  lemma NewRowsAreQueued(run: Run, i: nat, id: JobId)
    requires Legal(run) && i < |run| && id in StateAt(run, i + 1).jobs && StateAt(run, i + 1).jobs[id].token.Some?
    ensures id in StateAt(run, i).jobs
  {
    hide Step, EventOf, Legal, StateAt, EventAt, RowOk;
    RowAt(run, i, id);
  }

  /** A leased row always carries the token of the latest claim of that job. */
  lemma {:induction false} HolderIsLatest(run: Run, i: nat, id: JobId)
    requires Legal(run) && i <= |run|
    requires id in StateAt(run, i).jobs && StateAt(run, i).jobs[id].token.Some?
    ensures exists k :: LatestClaim(run, i, k, id, StateAt(run, i).jobs[id].token.value)
  {
    assert i > 0;
    hide Step, EventOf, Legal, StateAt, EventAt, Moves, JobOk;
    RowAt(run, i - 1, id);
    NewRowsAreQueued(run, i - 1, id);
    var token := StateAt(run, i).jobs[id].token.value;
    if ClaimsAt(run, i - 1, id) {
      assert LatestClaim(run, i, i - 1, id, token);
    } else {
      HolderIsLatest(run, i - 1, id);
      var k :| LatestClaim(run, i - 1, k, id, token);
      assert LatestClaim(run, i, k, id, token);
    }
  }

  /** A publication comes only from the holder of the job's latest claim, while its lease
      and the job's deadline are both in the future and nobody asked for cancellation; it
      stores exactly the outputs handed in, all intact and within budget. */
  lemma PublicationIsFenced(run: Run, i: nat)
    requires Legal(run) && i < |run| && EventAt(run, i).Publication?
    ensures var (e, t, at) := (EventAt(run, i), StateAt(run, i), run[i].at);
      && e.id in t.jobs
      && t.jobs[e.id].state.Running? && at < t.jobs[e.id].claimUntil && at < t.jobs[e.id].expiresAt
      && !t.jobs[e.id].cancelRequested
      && (exists k :: LatestClaim(run, i, k, e.id, e.token))
      && e.id in StateAt(run, i + 1).published && StateAt(run, i + 1).published[e.id] == e.outputs
      && OutputsOk(e.outputs)
  {
    hide Step, EventOf;
    StepAt(run, i);
    PublicationNeedsLease(StateAt(run, i), run[i].op, run[i].at);
    Reachable(run, i + 1, run[i].at);
    HolderIsLatest(run, i, EventAt(run, i).id);
  }

  /** Once `id` has published, it stays succeeded with those very outputs, or is gone for good. */
  ghost predicate Settled(t: Table, id: JobId, outputs: seq<Output>) {
    && id in t.drawnIds
    && (id in t.jobs ==> t.jobs[id].state.Succeeded? && id in t.published && t.published[id] == outputs)
  }

  lemma {:induction false} StaysSettled(run: Run, i: nat, k: nat)
    requires Legal(run) && i < k <= |run| && EventAt(run, i).Publication?
    ensures Settled(StateAt(run, k), EventAt(run, i).id, EventAt(run, i).outputs)
    decreases k
  {
    hide Step, EventOf, Legal, StateAt, EventAt, JobOk;
    RowAt(run, k - 1, EventAt(run, i).id);
    ShownAt(run, k - 1, EventAt(run, i).id);
    if k > i + 1 {
      StaysSettled(run, i, k - 1);
    }
  }

  /** A job publishes at most once. */
  lemma PublishesOnce(run: Run, i: nat, k: nat)
    requires Legal(run) && i < |run| && k < |run|
    requires EventAt(run, i).Publication? && EventAt(run, k).Publication? && EventAt(run, i).id == EventAt(run, k).id
    ensures i == k
  {
    hide Step, EventOf;
    if i < k {
      StaysSettled(run, i, k);
      PublicationIsFenced(run, k);
    } else if k < i {
      StaysSettled(run, k, i);
      PublicationIsFenced(run, i);
    }
  }

  /** Whatever outputs a job shows were delivered whole by one publication of that job. */
  lemma {:induction false} OutputsHaveOnePublication(run: Run, i: nat, id: JobId)
    requires Legal(run) && i <= |run| && id in StateAt(run, i).published
    ensures exists k :: 0 <= k < i && EventAt(run, k).Publication? && EventAt(run, k).id == id
                        && EventAt(run, k).outputs == StateAt(run, i).published[id]
  {
    hide Step, EventOf;
    if i > 0 {
      ShownAt(run, i - 1, id);
      hide StateAt, EventAt, Legal;
      var e := EventAt(run, i - 1);
      if !(e.Publication? && e.id == id) {
        OutputsHaveOnePublication(run, i - 1, id);
      }
    }
  }

  // ---------- lost leases ----------

  /** The token was drawn, and at time `now` its holder holds nothing. */
  ghost predicate Lost(t: Table, c: Ticket, now: int) {
    c.token in t.drawnTokens && !Held(t, c, now)
  }

  lemma LostStep(t: Table, op: Op, now: int, c: Ticket)
    requires Inv(t, now) && Fresh(t, op) && Lost(t, c, now) && c.id in t.drawnIds
    ensures Lost(Step(t, op, now), c, now)
    ensures HolderOp(op, c) ==> Step(t, op, now) == t && EventOf(t, op, now) == Quiet
  {
    var after, e := Step(t, op, now), EventOf(t, op, now);
    StepIsOk(t, op, now);
    hide Inv, Moves, Claim, Submit;
    if Held(after, c, now) {
      assert RowOk(t, after, e, c.id);
      if !(e.Claimed? && e.id == c.id) {
        assert after.jobs[c.id].claimUntil > now >= t.jobs[c.id].claimUntil;
        LeaseGrowsOnlyByRenewal(t, op, now, c.id);
      }
    }
  }

  /** The row has no lease beyond `now`. */
  predicate Unleased(t: Table, id: JobId, now: int)
    requires id in t.jobs
  {
    t.jobs[id].claimUntil <= now || t.jobs[id].token.None?
  }

  lemma HoldersNeedLeases(t: Table, c: Ticket, authorized: bool, text: string, d: Delivery, now: int, id: JobId)
    requires id in t.jobs && t.jobs[id].claimUntil <= now
    ensures id in Resolve(t, c, authorized, now).0.jobs && Unleased(Resolve(t, c, authorized, now).0, id, now)
    ensures id in Renew(t, c, authorized, now).0.jobs && Unleased(Renew(t, c, authorized, now).0, id, now)
    ensures id in Fail(t, c, text, now).jobs && Unleased(Fail(t, c, text, now), id, now)
    ensures id in Finish(t, c, d, now).0.jobs && Unleased(Finish(t, c, d, now).0, id, now)
  {
    hide Objection;
  }

  lemma ClaimsRecover(t: Table, q: ClaimRequest, now: int, id: JobId)
    requires Inv(t, now) && q.token !in t.drawnTokens
    requires id in t.jobs && t.jobs[id].token.Some? && t.jobs[id].claimUntil <= now
    requires EventOf(t, ClaimOp(q), now) != Claimed(id, q.token)
    ensures id in Claim(t, q, now).0.jobs && Unleased(Claim(t, q, now).0, id, now)
  {
    hide Claim, EventOf, RowOk, Inv;
    RowIsOk(t, now, id);
    ClaimRow(t, q, now, id);
  }

  /** Without a new claim, a row's lease is extended only for a holder. */
  lemma LeaseGrowsOnlyByRenewal(t: Table, op: Op, now: int, id: JobId)
    requires Inv(t, now) && Fresh(t, op)
    requires id in t.jobs && id in Step(t, op, now).jobs
    requires !(EventOf(t, op, now).Claimed? && EventOf(t, op, now).id == id)
    requires t.jobs[id].token.Some? && t.jobs[id].claimUntil <= now
    ensures Unleased(Step(t, op, now), id, now)
  {
    KeysDrawn(t, now);
    hide Inv, Claim, Resolve, Renew, Fail, Finish;
    match op
    case ClaimOp(q) => ClaimsRecover(t, q, now, id);
    case ResolveOp(c, authorized) => HoldersNeedLeases(t, c, authorized, "", Delivery([], false, false, 0), now, id);
    case RenewOp(c, authorized) => HoldersNeedLeases(t, c, authorized, "", Delivery([], false, false, 0), now, id);
    case FailOp(c, text) => HoldersNeedLeases(t, c, false, text, Delivery([], false, false, 0), now, id);
    case FinishOp(c, d) => HoldersNeedLeases(t, c, false, "", d, now, id);
    case _ =>
  }

  /** A lease once lost, by expiry, by recovery, by a newer claim or by the job's end,
      never comes back, and from then on its holder changes nothing, whatever it sends. */
  lemma {:induction false} LostForever(run: Run, i: nat, k: nat, c: Ticket)
    requires Legal(run) && i <= k < |run|
    requires c.id in StateAt(run, i).drawnIds && Lost(StateAt(run, i), c, run[i].at)
    ensures Lost(StateAt(run, k), c, run[k].at)
    ensures HolderOp(run[k].op, c) ==> StateAt(run, k + 1) == StateAt(run, k) && EventAt(run, k) == Quiet
    decreases k
  {
    hide Step, EventOf;
    Reachable(run, k, run[k].at);
    if i < k {
      LostForever(run, i, k - 1, c);
      Reachable(run, k - 1, run[k - 1].at);
      DrawnGrows(run, i, k - 1);
      assert FreshAt(run, k - 1);
      LostStep(StateAt(run, k - 1), run[k - 1].op, run[k - 1].at, c);
    }
    DrawnGrows(run, i, k);
    assert FreshAt(run, k);
    LostStep(StateAt(run, k), run[k].op, run[k].at, c);
  }

  lemma NewClaimFences(t: Table, op: Op, now: int, c: Ticket)
    requires Inv(t, now) && Fresh(t, op)
    requires EventOf(t, op, now).Claimed? && EventOf(t, op, now).id == c.id && c.token in t.drawnTokens
    ensures Lost(Step(t, op, now), c, now)
  {
    StepIsOk(t, op, now);
    hide Step, EventOf;
    assert RowOk(t, Step(t, op, now), EventOf(t, op, now), c.id);
  }

  lemma PublicationNeedsLease(t: Table, op: Op, now: int)
    requires EventOf(t, op, now).Publication?
    ensures var id := EventOf(t, op, now).id;
      && id in t.jobs && now < t.jobs[id].claimUntil && now < t.jobs[id].expiresAt && !t.jobs[id].cancelRequested
  {}

  /** A superseded token is lost: after a newer claim of the job, the older holder holds nothing. */
  lemma SupersededIsLost(run: Run, i: nat, m: nat, c: Ticket)
    requires Legal(run) && i < m < |run|
    requires EventAt(run, i) == Claimed(c.id, c.token) && ClaimsAt(run, m, c.id)
    ensures c.id in StateAt(run, m + 1).drawnIds && Lost(StateAt(run, m + 1), c, run[m].at)
  {
    hide Step, EventOf;
    StepAt(run, i);
    Reachable(run, i, run[i].at);
    DrawnGrows(run, i + 1, m);
    DrawnGrows(run, i, m + 1);
    Reachable(run, m, run[m].at);
    assert FreshAt(run, m);
    NewClaimFences(StateAt(run, m), run[m].op, run[m].at, c);
  }

  // ---------- ends ----------

  /** An ended row never changes again while it exists. */
  lemma {:induction false} EndIsFinal(run: Run, i: nat, k: nat, id: JobId)
    requires Legal(run) && i <= k <= |run|
    requires id in StateAt(run, i).jobs && !Active(StateAt(run, i).jobs[id])
    ensures id in StateAt(run, k).jobs ==> StateAt(run, k).jobs[id] == StateAt(run, i).jobs[id]
    ensures id in StateAt(run, k).drawnIds
    decreases k
  {
    hide Step, EventOf;
    if i < k {
      EndIsFinal(run, i, k - 1, id);
      StepAt(run, k - 1);
      var before, after := StateAt(run, k - 1), StateAt(run, k);
      if id in before.jobs && id in after.jobs { assert RowOk(before, after, EventAt(run, k - 1), id); }
    } else if i == 0 {
    } else {
      Reachable(run, i, run[i - 1].at);
    }
  }

  /** After a cancellation request the only end left is cancelled. */
  lemma {:induction false} CancellationWins(run: Run, i: nat, k: nat, id: JobId)
    requires Legal(run) && i <= k <= |run|
    requires id in StateAt(run, i).jobs && StateAt(run, i).jobs[id].cancelRequested
    ensures id in StateAt(run, k).drawnIds
    ensures id in StateAt(run, k).jobs ==>
      var j := StateAt(run, k).jobs[id];
      j.cancelRequested && (j.state.Running? || j.state.Cancelled?)
    decreases k
  {
    hide Step, EventOf;
    if i < k {
      CancellationWins(run, i, k - 1, id);
      StepAt(run, k - 1);
      var before, after := StateAt(run, k - 1), StateAt(run, k);
      if id in before.jobs && id in after.jobs { assert RowOk(before, after, EventAt(run, k - 1), id); }
    } else if i > 0 {
      Reachable(run, i, run[i - 1].at);
      assert JobOk(StateAt(run, i).jobs[id], run[i - 1].at);
    }
  }

  /** How often job `id` was claimed before step i. */
  ghost function Claims(run: Run, i: nat, id: JobId): nat
    requires i <= |run|
  {
    if i == 0 then 0 else Claims(run, i - 1, id) + if ClaimsAt(run, i - 1, id) then 1 else 0
  }

  /** The attempts column counts the claims, and no job is ever claimed a third time. */
  lemma {:induction false} AtMostTwoClaims(run: Run, i: nat, id: JobId)
    requires Legal(run) && i <= |run|
    ensures Claims(run, i, id) <= MAX_ATTEMPTS
    ensures id in StateAt(run, i).jobs ==> StateAt(run, i).jobs[id].attempts == Claims(run, i, id)
    ensures id !in StateAt(run, i).drawnIds ==> Claims(run, i, id) == 0
  {
    hide Step, EventOf;
    if i > 0 {
      AtMostTwoClaims(run, i - 1, id);
      hide StateAt, EventAt, Legal, Moves;
      RowAt(run, i - 1, id);
    }
  }
}

/** Whole runs of the job queue: any interleaving of its transactions, with a clock
    that may advance by any amount between two of them. */
module NativeJobRuns {
  import opened Wrappers
  import opened NativeJobs
  import opened NativeJobInvariants

  // ---------- one step ----------

  datatype Op =
    | SubmitOp(r: Submission)
    | CancelOp(project: ProjectId, id: JobId, authorized: bool)
    | DeleteOp(project: ProjectId, id: JobId, authorized: bool)
    | ClaimOp(q: ClaimRequest)
    | ResolveOp(c: Ticket, authorized: bool)
    | RenewOp(c: Ticket, authorized: bool)
    | FinishOp(c: Ticket, d: Delivery)
    | FailOp(c: Ticket, text: string)

  datatype Event = Quiet | Claimed(id: JobId, token: Token) | Publication(id: JobId, token: Token, outputs: seq<Output>)

  ghost function Step(t: Table, op: Op, now: int): Table {
    match op
    case SubmitOp(r) => Submit(t, r, now).0
    case CancelOp(project, id, authorized) => Cancel(t, project, id, authorized).0
    case DeleteOp(project, id, authorized) => Delete(t, project, id, authorized).0
    case ClaimOp(q) => Claim(t, q, now).0
    case ResolveOp(c, authorized) => Resolve(t, c, authorized, now).0
    case RenewOp(c, authorized) => Renew(t, c, authorized, now).0
    case FinishOp(c, d) => Finish(t, c, d, now).0
    case FailOp(c, text) => Fail(t, c, text, now)
  }

  ghost function EventOf(t: Table, op: Op, now: int): Event {
    match op
    case ClaimOp(q) => if Claim(t, q, now).1.Some? then Claimed(Claim(t, q, now).1.value.id, q.token) else Quiet
    case FinishOp(c, d) => if Finish(t, c, d, now).1 == Ok(true) then Publication(c.id, c.token, d.outputs) else Quiet
    case _ => Quiet
  }

  /** Random draws never repeat. */
  ghost predicate Fresh(t: Table, op: Op) {
    match op
    case SubmitOp(r) => r.id !in t.drawnIds
    case ClaimOp(q) => q.token !in t.drawnTokens
    case _ => true
  }

  predicate HolderOp(op: Op, c: Ticket) {
    (op.ResolveOp? || op.RenewOp? || op.FinishOp? || op.FailOp?) && op.c == c
  }

  // ---------- what a claim does, row by row ----------

  ghost predicate Refused(t: Table, after: Table, q: ClaimRequest, now: int, id: JobId)
    requires id in t.jobs && id in after.jobs
  {
    Refusal(id, t.jobs[id], q, now) == Some(after.jobs[id])
  }

  ghost predicate ScannedTo(t: Table, rows: seq<JobId>, after: Table, q: ClaimRequest, now: int, n: nat)
    requires forall id :: id in rows ==> id in t.jobs
    requires n <= |rows|
  {
    && after.jobs.Keys == t.jobs.Keys
    && (forall i :: 0 <= i < n ==> Refused(t, after, q, now, rows[i]))
    && (n < |rows| ==> Refusal(rows[n], t.jobs[rows[n]], q, now) == None && after.jobs[rows[n]] == Lease(t.jobs[rows[n]], q.token, now))
    && (forall id :: id in t.jobs && id !in rows[..if n < |rows| then n + 1 else n] ==> after.jobs[id] == t.jobs[id])
    && after.published == t.published && after.drawnIds == t.drawnIds
    && after.drawnTokens == t.drawnTokens + if n < |rows| then {q.token} else {}
  }

  lemma ScannedOneMore(t: Table, rows: seq<JobId>, ended: Job, after: Table, q: ClaimRequest, now: int, m: nat)
    requires rows != [] && forall i :: 0 <= i < |rows| ==> rows[i] in t.jobs
    requires forall i, k :: 0 <= i < k < |rows| ==> rows[i] != rows[k]
    requires Refusal(rows[0], t.jobs[rows[0]], q, now) == Some(ended)
    requires m < |rows| && ScannedTo(Put(t, rows[0], ended), rows[1..], after, q, now, m)
    ensures ScannedTo(t, rows, after, q, now, m + 1)
  {
    hide Refusal, Lease;
    var id, rest, n := rows[0], rows[1..], m + 1;
    var cut := if m < |rest| then m + 1 else m;
    assert id !in rest[..cut];
    forall i | 0 <= i < n ensures Refused(t, after, q, now, rows[i]) {
      if i > 0 {
        assert rows[i] == rest[i - 1];
        assert Refused(Put(t, id, ended), after, q, now, rest[i - 1]);
      }
    }
    if n < |rows| { assert rows[n] == rest[m]; }
    assert rows[..cut + 1] == [id] + rest[..cut];
    forall other | other in t.jobs && other !in rows[..cut + 1] ensures after.jobs[other] == t.jobs[other] {
      assert other !in rest[..cut];
    }
  }

  /** The scan refuses a prefix of the rows, leases the row after it, and leaves the rest alone. */
  lemma {:induction false} ScanOutcome(t: Table, rows: seq<JobId>, q: ClaimRequest, now: int) returns (n: nat)
    requires forall i :: 0 <= i < |rows| ==> rows[i] in t.jobs
    requires forall i, k :: 0 <= i < k < |rows| ==> rows[i] != rows[k]
    ensures n <= |rows| && ScannedTo(t, rows, Scan(t, rows, q, now).0, q, now, n)
    ensures Scan(t, rows, q, now).1 == if n < |rows| then Some(TicketOf(rows[n], t.jobs[rows[n]], q.token)) else None
    decreases |rows|
  {
    if rows == [] {
      n := 0;
    } else {
      var id := rows[0];
      match Refusal(id, t.jobs[id], q, now)
      case None =>
        n := 0;
        assert rows[..1] == [id];
      case Some(ended) =>
        hide ScannedTo, Refusal;
        var m := ScanOutcome(Put(t, id, ended), rows[1..], q, now);
        n := m + 1;
        ScannedOneMore(t, rows, ended, Scan(t, rows, q, now).0, q, now, m);
    }
  }

  ghost predicate Claimable(t: Table, q: ClaimRequest, now: int, id: JobId) {
    id in QueuedIds(t.jobs, q.scope) && Refusal(id, t.jobs[id], q, now) == None
  }

  /** Row `id` is leased: the oldest claimable row. Older rows of the scope are ended,
      each with its own reason; all others stay. */
  ghost predicate Leases(t: Table, after: Table, q: ClaimRequest, now: int, id: JobId) {
    && after.jobs.Keys == t.jobs.Keys
    && Claimable(t, q, now, id)
    && (forall other :: Claimable(t, q, now, other) && other != id ==> Before(t.jobs, id, other))
    && after.jobs[id] == Lease(t.jobs[id], q.token, now)
    && (forall other :: other in t.jobs && other != id ==>
         if other in QueuedIds(t.jobs, q.scope) && Before(t.jobs, other, id) then Refused(t, after, q, now, other)
         else after.jobs[other] == t.jobs[other])
  }

  /** No row is claimable: every queued row of the scope is ended, all others stay. */
  ghost predicate LeasesNone(t: Table, after: Table, q: ClaimRequest, now: int) {
    && after.jobs.Keys == t.jobs.Keys
    && (forall id :: !Claimable(t, q, now, id))
    && (forall id :: id in t.jobs ==>
         if id in QueuedIds(t.jobs, q.scope) then Refused(t, after, q, now, id) else after.jobs[id] == t.jobs[id])
  }

  lemma ScanLeases(t: Table, rows: seq<JobId>, after: Table, q: ClaimRequest, now: int, n: nat)
    requires forall i :: 0 <= i < |rows| ==> rows[i] in t.jobs && rows[i] in QueuedIds(t.jobs, q.scope)
    requires forall i, k :: 0 <= i < k < |rows| ==> rows[i] != rows[k] && Before(t.jobs, rows[i], rows[k])
    requires forall id :: id in QueuedIds(t.jobs, q.scope) ==> id in rows
    requires n < |rows| && ScannedTo(t, rows, after, q, now, n)
    ensures Leases(t, after, q, now, rows[n])
  {
    assert rows[n] in QueuedIds(t.jobs, q.scope);
    forall other | other in t.jobs && other != rows[n]
      ensures if other in QueuedIds(t.jobs, q.scope) && Before(t.jobs, other, rows[n])
              then Refused(t, after, q, now, other) else after.jobs[other] == t.jobs[other]
      ensures Claimable(t, q, now, other) ==> Before(t.jobs, rows[n], other)
    {
      if other in QueuedIds(t.jobs, q.scope) {
        var i :| 0 <= i < |rows| && rows[i] == other;
        if i < n {
          assert Refused(t, after, q, now, rows[i]) && Before(t.jobs, rows[i], rows[n]);
        } else {
          assert Before(t.jobs, rows[n], rows[i]);
          assert other !in rows[..n + 1];
        }
      } else {
        assert other !in rows[..n + 1];
      }
    }
  }

  lemma ScanLeasesNone(t: Table, rows: seq<JobId>, after: Table, q: ClaimRequest, now: int)
    requires forall i :: 0 <= i < |rows| ==> rows[i] in QueuedIds(t.jobs, q.scope)
    requires forall id :: id in QueuedIds(t.jobs, q.scope) ==> id in rows
    requires ScannedTo(t, rows, after, q, now, |rows|)
    ensures LeasesNone(t, after, q, now)
  {
    assert rows[..|rows|] == rows;
    forall id | id in t.jobs
      ensures if id in QueuedIds(t.jobs, q.scope) then Refused(t, after, q, now, id) else after.jobs[id] == t.jobs[id]
    {
      if id in QueuedIds(t.jobs, q.scope) {
        var i :| 0 <= i < |rows| && rows[i] == id;
        assert Refused(t, after, q, now, rows[i]);
      }
    }
    forall id ensures !Claimable(t, q, now, id) {
      if id in QueuedIds(t.jobs, q.scope) { assert Refused(t, after, q, now, id); }
    }
  }

  /** What a claim decides. Stale leases are recovered first; with four jobs running
      nothing more happens. Otherwise it leases exactly when some row is claimable. */
  lemma ClaimOutcome(t: Table, q: ClaimRequest, now: int)
    requires Inv(t, now) && q.token !in t.drawnTokens
    ensures var (r, after, ticket) := (Recovered(t, now), Claim(t, q, now).0, Claim(t, q, now).1);
      && Inv(r, now) && after.published == t.published && after.drawnIds == t.drawnIds
      && after.drawnTokens == t.drawnTokens + (if ticket.Some? then {q.token} else {})
      && if |RunningIds(r.jobs)| >= MAX_RUNNING then after == r && ticket == None
         else if ticket.Some? then
           var id := ticket.value.id;
           Leases(r, after, q, now, id) && ticket == Some(TicketOf(id, r.jobs[id], q.token))
         else LeasesNone(r, after, q, now)
  {
    var r := Recovered(t, now);
    RecoverSomeKeeps(t, StaleIds(t.jobs, now), now);
    if |RunningIds(r.jobs)| < MAX_RUNNING {
      hide Inv, Scan, Refusal, Leases, LeasesNone, Before, Lease;
      var rows := ListingFacts(r, q.scope, now);
      var n := ScanOutcome(r, rows, q, now);
      var after := Claim(t, q, now).0;
      assert after == Scan(r, rows, q, now).0;
      if n < |rows| { ScanLeases(r, rows, after, q, now, n); } else { ScanLeasesNone(r, rows, after, q, now); }
    }
  }

  // ---------- what any step does ----------

  lemma StepKeeps(t: Table, op: Op, now: int)
    requires Inv(t, now) && Fresh(t, op)
    ensures Inv(Step(t, op, now), now)
  {
    match op
    case SubmitOp(r) => SubmitKeeps(t, r, now);
    case CancelOp(project, id, authorized) => CancelKeeps(t, project, id, authorized, now);
    case DeleteOp(project, id, authorized) => DeleteKeeps(t, project, id, authorized, now);
    case ClaimOp(q) => ClaimKeeps(t, q, now);
    case ResolveOp(c, authorized) => ResolveKeeps(t, c, authorized, now);
    case RenewOp(c, authorized) => RenewKeeps(t, c, authorized, now);
    case FinishOp(c, d) => FinishKeeps(t, c, d, now);
    case FailOp(c, text) => FailKeeps(t, c, text, now);
  }

  /** Rows come and go only as fresh submissions and as deletions of ended jobs; a row
      that stays makes one of the moves; a new token or success is announced by the event. */
  ghost predicate StepOk(t: Table, after: Table, e: Event) {
    && t.drawnIds <= after.drawnIds && t.drawnTokens <= after.drawnTokens
    && (forall id :: id in after.jobs && id !in t.jobs ==> id !in t.drawnIds && after.jobs[id].state.Queued? && after.jobs[id].attempts == 0)
    && (forall id :: id in t.jobs && id !in after.jobs ==> !Active(t.jobs[id]))
    && (forall id :: id in t.jobs && id in after.jobs ==> RowOk(t, after, e, id))
    && (e.Claimed? ==> e.id in t.jobs && e.id in after.jobs && e.token !in t.drawnTokens && e.token in after.drawnTokens)
    && (e.Publication? ==> e.id in t.jobs && e.id in after.published && after.published[e.id] == e.outputs)
    && (forall id :: id in after.published && !(e.Publication? && id == e.id) ==> id in t.published && after.published[id] == t.published[id])
  }

  ghost predicate RowOk(t: Table, after: Table, e: Event, id: JobId)
    requires id in t.jobs && id in after.jobs
  {
    var j, k := t.jobs[id], after.jobs[id];
    && Moves(j, k)
    && (e.Claimed? && id == e.id ==> k.token == Some(e.token) && k.attempts == j.attempts + 1 && k.state.Running?)
    && (!(e.Claimed? && id == e.id) ==> k.attempts == j.attempts && (k.token.Some? ==> k.token == j.token))
    && (!(e.Publication? && id == e.id) ==> (k.state.Succeeded? ==> j.state.Succeeded?))
    && (e.Publication? && id == e.id ==> j.state.Running? && j.token == Some(e.token) && k.state.Succeeded?)
  }

  /** The row part of ClaimOutcome: recovery, then at most one refusal or lease. */
  lemma ClaimRowOk(t: Table, r: Table, after: Table, q: ClaimRequest, now: int, id: JobId, leased: bool)
    requires id in t.jobs && id in after.jobs && JobOk(t.jobs[id], now)
    requires id in r.jobs && r.jobs[id] == if Stale(t.jobs[id], now) then Recover(t.jobs[id], now) else t.jobs[id]
    requires if leased then r.jobs[id].state.Queued? && after.jobs[id] == Lease(r.jobs[id], q.token, now)
             else after.jobs[id] == r.jobs[id] || (r.jobs[id].state.Queued? && Refused(r, after, q, now, id))
    ensures Moves(t.jobs[id], after.jobs[id])
    ensures var j, k := t.jobs[id], after.jobs[id];
      if leased then k.token == Some(q.token) && k.attempts == j.attempts + 1 && k.state.Running?
      else k.attempts == j.attempts && (k.token.Some? ==> k.token == j.token) && (k.state.Succeeded? ==> j.state.Succeeded?)
    ensures !leased && Stale(t.jobs[id], now) ==> after.jobs[id].token.None?
  {}

  lemma LeasedRow(r: Table, after: Table, q: ClaimRequest, now: int, first: JobId, id: JobId)
    requires Leases(r, after, q, now, first) && id in r.jobs
    ensures id in after.jobs
    ensures if id == first then r.jobs[id].state.Queued? && after.jobs[id] == Lease(r.jobs[id], q.token, now)
            else after.jobs[id] == r.jobs[id] || (r.jobs[id].state.Queued? && Refused(r, after, q, now, id))
  {
    hide Refusal, Lease, Before;
    assert Claimable(r, q, now, first);
  }

  lemma UnleasedRow(r: Table, after: Table, q: ClaimRequest, now: int, id: JobId)
    requires LeasesNone(r, after, q, now) && id in r.jobs
    ensures id in after.jobs
    ensures after.jobs[id] == r.jobs[id] || (r.jobs[id].state.Queued? && Refused(r, after, q, now, id))
  {
    hide Refusal;
  }

  lemma ClaimRow(t: Table, q: ClaimRequest, now: int, id: JobId)
    requires Inv(t, now) && q.token !in t.drawnTokens && id in t.jobs
    ensures id in Claim(t, q, now).0.jobs
    ensures RowOk(t, Claim(t, q, now).0, EventOf(t, ClaimOp(q), now), id)
    ensures Stale(t.jobs[id], now) ==> Claim(t, q, now).0.jobs[id].token.None?
                                       || EventOf(t, ClaimOp(q), now) == Claimed(id, q.token)
  {
    hide Inv, Claim, Leases, LeasesNone, Refused, JobOk, Moves, Recover, Lease;
    ClaimOutcome(t, q, now);
    var (after, ticket) := Claim(t, q, now);
    var r := Recovered(t, now);
    RowIsOk(t, now, id);
    if |RunningIds(r.jobs)| >= MAX_RUNNING {
      ClaimRowOk(t, r, after, q, now, id, false);
    } else if ticket.Some? {
      LeasedRow(r, after, q, now, ticket.value.id, id);
      ClaimRowOk(t, r, after, q, now, id, id == ticket.value.id);
    } else {
      UnleasedRow(r, after, q, now, id);
      ClaimRowOk(t, r, after, q, now, id, false);
    }
  }

  lemma ClaimFrame(t: Table, q: ClaimRequest, now: int)
    requires Inv(t, now) && q.token !in t.drawnTokens
    ensures var (after, ticket) := Claim(t, q, now);
      && after.jobs.Keys == t.jobs.Keys && after.published == t.published && after.drawnIds == t.drawnIds
      && after.drawnTokens == t.drawnTokens + (if ticket.Some? then {q.token} else {})
      && (ticket.Some? ==> ticket.value.id in t.jobs)
  {
    ClaimOutcome(t, q, now);
    var r, after := Recovered(t, now), Claim(t, q, now).0;
    assert r.jobs.Keys == t.jobs.Keys;
  }

  lemma ClaimOk(t: Table, q: ClaimRequest, now: int)
    requires Inv(t, now) && q.token !in t.drawnTokens
    ensures StepOk(t, Claim(t, q, now).0, EventOf(t, ClaimOp(q), now))
  {
    ClaimFrame(t, q, now);
    forall id | id in t.jobs ensures RowOk(t, Claim(t, q, now).0, EventOf(t, ClaimOp(q), now), id) {
      ClaimRow(t, q, now, id);
    }
  }

  lemma PutOk(t: Table, id: JobId, k: Job)
    requires id in t.jobs && Moves(t.jobs[id], k) && k.attempts == t.jobs[id].attempts
    requires k.token.Some? ==> k.token == t.jobs[id].token
    requires k.state.Succeeded? ==> t.jobs[id].state.Succeeded?
    ensures StepOk(t, Put(t, id, k), Quiet)
  {
    forall other | other in t.jobs ensures RowOk(t, Put(t, id, k), Quiet, other) {}
  }

  lemma PublicationOk(t: Table, id: JobId, token: Token, outputs: seq<Output>)
    requires id in t.jobs && t.jobs[id].state.Running? && t.jobs[id].token == Some(token) && !t.jobs[id].cancelRequested
    ensures StepOk(t, Publish(t, id, outputs), Publication(id, token, outputs))
  {
    forall other | other in t.jobs ensures RowOk(t, Publish(t, id, outputs), Publication(id, token, outputs), other) {}
  }

  lemma FinishOk(t: Table, c: Ticket, d: Delivery, now: int)
    requires Inv(t, now)
    ensures StepOk(t, Finish(t, c, d, now).0, EventOf(t, FinishOp(c, d), now))
  {
    var (after, r) := Finish(t, c, d, now);
    if r == Ok(true) {
      hide Inv, StepOk, Objection;
      PublicationOk(t, c.id, c.token, d.outputs);
    } else if after != t {
      hide Inv, StepOk, Objection;
      RowIsOk(t, now, c.id);
      PutOk(t, c.id, after.jobs[c.id]);
    } else {
      hide Inv, StepOk;
      Unchanged(t);
    }
  }

  lemma ResolveOk(t: Table, c: Ticket, authorized: bool, now: int)
    requires Inv(t, now)
    ensures StepOk(t, Resolve(t, c, authorized, now).0, Quiet)
  {
    if Resolve(t, c, authorized, now).0 == t { Unchanged(t); } else { PutOk(t, c.id, Resolve(t, c, authorized, now).0.jobs[c.id]); }
  }

  lemma RenewOk(t: Table, c: Ticket, authorized: bool, now: int)
    requires Inv(t, now)
    ensures StepOk(t, Renew(t, c, authorized, now).0, Quiet)
  {
    if Renew(t, c, authorized, now).0 == t { Unchanged(t); } else { PutOk(t, c.id, Renew(t, c, authorized, now).0.jobs[c.id]); }
  }

  lemma FailOk(t: Table, c: Ticket, text: string, now: int)
    requires Inv(t, now)
    ensures StepOk(t, Fail(t, c, text, now), Quiet)
  {
    if Fail(t, c, text, now) == t { Unchanged(t); } else { PutOk(t, c.id, Fail(t, c, text, now).jobs[c.id]); }
  }

  lemma CancelOk(t: Table, project: ProjectId, id: JobId, authorized: bool, now: int)
    requires Inv(t, now)
    ensures StepOk(t, Cancel(t, project, id, authorized).0, Quiet)
  {
    var after := Cancel(t, project, id, authorized).0;
    if after == t { Unchanged(t); } else { PutOk(t, id, after.jobs[id]); }
  }

  lemma SubmitOk(t: Table, r: Submission, now: int)
    requires Inv(t, now) && r.id !in t.drawnIds
    ensures StepOk(t, Submit(t, r, now).0, Quiet)
  {
    var after := Submit(t, r, now).0;
    if after == t {
      Unchanged(t);
    } else {
      assert after == t.(jobs := t.jobs[r.id := NewJob(r, now)], drawnIds := t.drawnIds + {r.id});
      forall id | id in t.jobs ensures RowOk(t, after, Quiet, id) {}
    }
  }

  lemma DeleteOk(t: Table, project: ProjectId, id: JobId, authorized: bool)
    ensures StepOk(t, Delete(t, project, id, authorized).0, Quiet)
  {
    var after := Delete(t, project, id, authorized).0;
    forall other | other in after.jobs ensures RowOk(t, after, Quiet, other) {}
  }

  lemma StepIsOk(t: Table, op: Op, now: int)
    requires Inv(t, now) && Fresh(t, op)
    ensures StepOk(t, Step(t, op, now), EventOf(t, op, now))
  {
    match op
    case SubmitOp(r) => SubmitOk(t, r, now);
    case CancelOp(project, id, authorized) => CancelOk(t, project, id, authorized, now);
    case DeleteOp(project, id, authorized) => DeleteOk(t, project, id, authorized);
    case ClaimOp(q) => ClaimOk(t, q, now);
    case ResolveOp(c, authorized) => ResolveOk(t, c, authorized, now);
    case RenewOp(c, authorized) => RenewOk(t, c, authorized, now);
    case FinishOp(c, d) => FinishOk(t, c, d, now);
    case FailOp(c, text) => FailOk(t, c, text, now);
  }

  lemma Unchanged(t: Table)
    ensures StepOk(t, t, Quiet)
  {}
}

/** The transactions of rendering over one ledger and one table of jobs. */
module RenderDesk {
  import opened Wrappers
  import opened MapSums
  import opened Capacity
  import opened CapacityLedger
  import opened RenderJobs

  class Desk {
    const ledger: Ledger
    var jobs: map<JobId, Job>

    ghost function View(): State
      reads this, ledger
    {
      State(ledger.View(), jobs)
    }

    constructor (ledger: Ledger)
      ensures this.ledger == ledger && jobs == map[]
    {
      this.ledger := ledger;
      jobs := map[];
    }

    method Restore(artifacts: map<ArtifactId, Artifact>, permits: map<PermitId, Permit>, usage: map<UsageKey, Usage>)
      modifies ledger
      ensures ledger.View() == Tables(artifacts, permits, usage)
    {
      ledger.artifacts, ledger.permits, ledger.usage := artifacts, permits, usage;
    }

    method ReserveFor(g: Settings, q: Submission, now: nat) returns (failure: Option<Failure>)
      modifies ledger
      ensures (ledger.View(), failure) == TakePermit(old(ledger.View()), g, q, now)
    {
      if !q.configured { return None; }
      var error := ledger.AdmitRequest(g.render, Request(q.user, Render, q.tokens, Some(q.project), g.outputBytes, 1), q.permit, now);
      failure := if error.Some? then Some(Refused(error.value)) else None;
    }

    method FetchSource(q: Submission, now: nat) returns (failure: Option<Failure>)
      modifies ledger
      ensures (ledger.View(), failure) == TakeSource(old(ledger.View()), q, now)
    {
      match q.source
      case Upload(id, size) =>
        if size < MIN_SOURCE_BYTES || size > MAX_SOURCE_BYTES { return Some(BadImage); }
        var error := ledger.CreateArtifact(id, q.project, size, true, now);
        failure := if error.Some? then Some(Refused(error.value)) else None;
      case Stored(id) =>
        if id !in ledger.artifacts || ledger.artifacts[id].project != q.project { return Some(SourceMissing); }
        if ledger.artifacts[id].size > MAX_SOURCE_BYTES { return Some(BadImage); }
        failure := None;
    }

    method SubmitJob(g: Settings, id: JobId, q: Submission, authorized: bool, ahead: bool, now: nat) returns (failure: Option<Failure>)
      modifies this, ledger
      ensures (View(), failure) == Submit(old(View()), g, id, q, authorized, ahead, now)
    {
      hide TakePermit, TakeSource;
      if !authorized { return Some(Forbidden); }
      var count := Total(jobs, JobIn(q.project));
      if count >= MAX_RENDER_JOBS { return Some(HistoryFull); }
      if ahead { return Some(SourceAhead); }
      var artifacts, permits, usage := ledger.artifacts, ledger.permits, ledger.usage;
      failure := ReserveFor(g, q, now);
      if failure == None { failure := FetchSource(q, now); }
      if failure.Some? {
        Restore(artifacts, permits, usage);
        return;
      }
      jobs := jobs[id := Job(q.project, if q.configured then Queued else Unconfigured, q.source.id, None, now)];
    }

    method RetryJob(g: Settings, id: JobId, original: JobId, q: Submission, authorized: bool, bounded: bool, now: nat) returns (failure: Option<Failure>)
      modifies this, ledger
      ensures (View(), failure) == Retry(old(View()), g, id, original, q, authorized, bounded, now)
    {
      hide TakePermit;
      if !authorized { return Some(Forbidden); }
      if original !in jobs || jobs[original].project != q.project { return Some(JobNotFound); }
      if Active(jobs[original].status) { return Some(InvalidState); }
      var count := Total(jobs, JobIn(q.project));
      if count >= MAX_RENDER_JOBS { return Some(HistoryFull); }
      if !bounded { return Some(InputTooLarge); }
      var stored := q.(source := Stored(jobs[original].source));
      var missing := FetchSource(stored, now);
      if missing.Some? { return Some(SourceMissing); }
      var artifacts, permits, usage := ledger.artifacts, ledger.permits, ledger.usage;
      failure := ReserveFor(g, stored, now);
      if failure.Some? {
        Restore(artifacts, permits, usage);
        return;
      }
      jobs := jobs[id := Job(q.project, if q.configured then Queued else Unconfigured, stored.source.id, None, now)];
    }

    method Start(id: JobId, now: nat)
      modifies this`jobs
      ensures View() == MarkRunning(old(View()), id, now)
    {
      if id in jobs && jobs[id].status == Queued { jobs := jobs[id := jobs[id].(status := Running, updatedAt := now)]; }
    }

    method CommitRender(id: JobId, project: ProjectId, permit: PermitId, artifact: ArtifactId, size: nat, authorized: bool, aborted: bool, now: nat)
      returns (failure: Option<Failure>)
      modifies this, ledger
      ensures (View(), failure) == Commit(old(View()), id, project, permit, artifact, size, authorized, aborted, now)
    {
      hide Create;
      if !authorized { return Some(Forbidden); }
      if id !in jobs || jobs[id].project != project || jobs[id].status != Running || aborted { return None; }
      var artifacts, permits, usage := ledger.artifacts, ledger.permits, ledger.usage;
      ledger.ReleasePermit(permit);
      var error := ledger.CreateArtifact(artifact, project, size, true, now);
      if error.Some? {
        Restore(artifacts, permits, usage);
        return Some(Refused(error.value));
      }
      jobs := jobs[id := jobs[id].(status := Succeeded, output := Some(artifact), updatedAt := now)];
      failure := None;
    }

    method FailRender(id: JobId, aborted: bool, now: nat)
      modifies this`jobs
      ensures View() == Fail(old(View()), id, aborted, now)
    {
      if id in jobs && Active(jobs[id].status) {
        jobs := jobs[id := jobs[id].(status := if aborted then Cancelled else Failed, updatedAt := now)];
      }
    }

    method CancelRender(id: JobId, project: ProjectId, authorized: bool, now: nat) returns (failure: Option<Failure>)
      modifies this`jobs
      ensures (View(), failure) == Cancel(old(View()), id, project, authorized, now)
    {
      if !authorized { return Some(Forbidden); }
      if id !in jobs || jobs[id].project != project { return Some(JobNotFound); }
      if jobs[id].status != Queued && jobs[id].status != Running { return Some(InvalidState); }
      jobs := jobs[id := jobs[id].(status := Cancelled, updatedAt := now)];
      failure := None;
    }

    method ReconcileInterrupted(g: Settings, now: nat)
      modifies this`jobs
      ensures View() == Reconcile(old(View()), g, now)
    {
      var grace := (g.render.timeoutMs + 999) / 1000 + 120;
      var rest := jobs.Keys;
      ghost var before := View();
      while rest != {}
        invariant rest <= before.jobs.Keys == jobs.Keys && ledger.View() == before.tables
        invariant forall id :: id in rest ==> jobs[id] == before.jobs[id]
        invariant forall id :: id in before.jobs && id !in rest ==> jobs[id] == Reconcile(before, g, now).jobs[id]
        decreases rest
      {
        var id :| id in rest;
        rest := rest - {id};
        var j := jobs[id];
        var reserved := exists p <- ledger.permits :: ReservesFor(ledger.permits[p], j.project, now);
        if (j.status == Queued || j.status == Running) && j.updatedAt < now - grace && !reserved {
          jobs := jobs[id := j.(status := Failed, updatedAt := now)];
        }
      }
      assert jobs == Reconcile(before, g, now).jobs;
    }
  }
}

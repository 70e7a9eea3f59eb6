/** Runs of rendering: the transactions of every job's worker, of users, of other provider
    requests and of crash recovery, interleaved in any order. */
module RenderRuns {
  import opened Wrappers
  import opened MapSums
  import opened Capacity
  import opened RenderJobs

  /** Where the worker of a job stands. */
  datatype Pc = Starting | Checking | Generating | Committing(size: nat) | Failing | Releasing

  datatype Worker = Worker(permitId: PermitId, permit: Permit, aborted: bool, pc: Pc)

  datatype World = World(s: State, workers: map<JobId, Worker>, clock: nat)

  datatype Op =
    | SubmitOp(job: JobId, q: Submission, authorized: bool, ahead: bool)
    | RetryOp(job: JobId, original: JobId, q: Submission, authorized: bool, bounded: bool)
    | StartOp(job: JobId, authorized: bool)
    | CheckOp(job: JobId)
    | GenerateOp(job: JobId, image: Option<nat>)
    | CommitOp(job: JobId, artifact: ArtifactId, authorized: bool)
    | FailOp(job: JobId, abortError: bool)
    | ReleaseOp(job: JobId)
    | CrashOp(job: JobId)
    | AbortOp(job: JobId)
    | CancelOp(job: JobId, project: ProjectId, authorized: bool)
    | ReconcileOp
    | AdmitOp(request: Request, permit: PermitId)
    | FreeOp(permit: PermitId)
    | UploadOp(artifact: ArtifactId, project: ProjectId, size: nat, authorized: bool)
    | DeleteOp(artifact: ArtifactId, project: ProjectId, authorized: bool, referenced: bool)

  function Hire(w: World, g: Settings, job: JobId, q: Submission, accepted: bool, now: nat): map<JobId, Worker> {
    if accepted && q.configured then w.workers[job := Worker(q.permit, PermitFor(g.render, RenderRequest(g, q), now), false, Starting)]
    else w.workers
  }

  function At(w: World, job: JobId, pc: Pc): map<JobId, Worker>
    requires job in w.workers
  {
    w.workers[job := w.workers[job].(pc := pc)]
  }

  ghost function Step(g: Settings, w: World, op: Op, now: nat): World
    requires Enabled(w, op, now)
  {
    var s := w.s;
    match op
    case SubmitOp(job, q, authorized, ahead) =>
      var (after, failure) := Submit(s, g, job, q, authorized, ahead, now);
      World(after, Hire(w, g, job, q, failure == None, now), now)
    case RetryOp(job, original, q, authorized, bounded) =>
      var (after, failure) := Retry(s, g, job, original, q, authorized, bounded, now);
      World(after, Hire(w, g, job, q, failure == None, now), now)
    case StartOp(job, authorized) =>
      if authorized then World(MarkRunning(s, job, now), At(w, job, Checking), now) else World(s, At(w, job, Failing), now)
    case CheckOp(job) => World(s, At(w, job, if s.jobs[job].status == Running then Generating else Releasing), now)
    case GenerateOp(job, image) =>
      World(s, At(w, job, if !w.workers[job].aborted && image.Some? && 0 < image.value <= g.outputBytes then Committing(image.value) else Failing), now)
    case CommitOp(job, artifact, authorized) =>
      var worker := w.workers[job];
      var (after, failure) := Commit(s, job, s.jobs[job].project, worker.permitId, artifact, worker.pc.size, authorized, worker.aborted, now);
      World(after, At(w, job, if failure == None then Releasing else Failing), now)
    case FailOp(job, abortError) => World(Fail(s, job, abortError || w.workers[job].aborted, now), At(w, job, Releasing), now)
    case ReleaseOp(job) => World(s.(tables := Release(s.tables, w.workers[job].permitId)), w.workers - {job}, now)
    case CrashOp(job) => World(s, w.workers - {job}, now)
    case AbortOp(job) => World(s, w.workers[job := w.workers[job].(aborted := true)], now)
    case CancelOp(job, project, authorized) => World(Cancel(s, job, project, authorized, now).0, w.workers, now)
    case ReconcileOp => World(Reconcile(s, g, now), w.workers, now)
    case AdmitOp(request, permit) => World(s.(tables := Admit(s.tables, g.assistant, request, permit, now).0), w.workers, now)
    case FreeOp(permit) => World(s.(tables := Release(s.tables, permit)), w.workers, now)
    case UploadOp(artifact, project, size, authorized) =>
      World(s.(tables := Create(s.tables, artifact, project, size, authorized, now).0), w.workers, now)
    case DeleteOp(artifact, project, authorized, referenced) =>
      World(s.(tables := Remove(s.tables, artifact, project, authorized, referenced || Pictured(s.jobs, artifact)).0), w.workers, now)
  }

  /** A permit id that no request holds. */
  ghost predicate Unused(w: World, permit: PermitId) {
    permit !in w.s.tables.permits && forall j :: j in w.workers ==> w.workers[j].permitId != permit
  }

  predicate Stands(w: World, job: JobId, pc: Pc) {
    job in w.workers && job in w.s.jobs && w.workers[job].pc == pc
  }

  /** A worker takes its steps in order; ids are fresh; a request releases only its own permit. */
  ghost predicate Enabled(w: World, op: Op, now: nat) {
    && w.clock <= now
    && match op
       case SubmitOp(job, q, _, _) =>
         job !in w.s.jobs && job !in w.workers && Unused(w, q.permit) && (q.source.Upload? ==> q.source.id !in w.s.tables.artifacts)
       case RetryOp(job, _, q, _, _) => job !in w.s.jobs && job !in w.workers && Unused(w, q.permit)
       case StartOp(job, _) => Stands(w, job, Starting)
       case CheckOp(job) => Stands(w, job, Checking)
       case GenerateOp(job, _) => Stands(w, job, Generating)
       case CommitOp(job, artifact, _) =>
         job in w.workers && job in w.s.jobs && w.workers[job].pc.Committing? && artifact !in w.s.tables.artifacts
       case FailOp(job, _) => Stands(w, job, Failing)
       case ReleaseOp(job) => Stands(w, job, Releasing)
       case CrashOp(job) => job in w.workers
       case AbortOp(job) => job in w.workers
       case CancelOp(_, _, _) => true
       case ReconcileOp => true
       case AdmitOp(request, permit) => request.kind == Assistant && Unused(w, permit)
       case FreeOp(permit) => forall j :: j in w.workers ==> w.workers[j].permitId != permit
       case UploadOp(artifact, _, _, _) => artifact !in w.s.tables.artifacts
       case DeleteOp(_, _, _, _) => true
  }

  // ---------- invariant ----------

  predicate Stored(t: Tables, artifact: ArtifactId, project: ProjectId) {
    artifact in t.artifacts && t.artifacts[artifact].project == project
  }

  predicate JobOk(t: Tables, j: Job) {
    && (j.status == Succeeded <==> j.output.Some?)
    && Stored(t, j.source, j.project)
    && (j.output.Some? ==> Stored(t, j.output.value, j.project))
  }

  /** Until its worker is done with it, a live permit is in the table as it was granted. */
  predicate WorkerOk(g: Settings, w: World, job: JobId)
    requires job in w.workers
  {
    var k := w.workers[job];
    && job in w.s.jobs && k.permit.kind == Render && k.permit.project == Some(w.s.jobs[job].project)
    && k.permit.count == 1 && k.permit.bytes == g.outputBytes
    && (k.pc.Committing? ==> 0 < k.pc.size <= g.outputBytes)
    && (k.pc != Releasing && w.clock < k.permit.expiresAt ==>
          k.permitId in w.s.tables.permits && w.s.tables.permits[k.permitId] == k.permit)
  }

  ghost predicate JobsOk(s: State) {
    forall id :: id in s.jobs ==> JobOk(s.tables, s.jobs[id])
  }

  ghost predicate WorkersOk(g: Settings, w: World) {
    && (forall j :: j in w.workers ==> WorkerOk(g, w, j))
    && forall i, j :: i in w.workers && j in w.workers && w.workers[i].permitId == w.workers[j].permitId ==> i == j
  }

  ghost predicate Balanced(t: Tables) {
    forall kind, day :: UsageBalanced(t, kind, day)
  }

  ghost predicate TablesOk(g: Settings, t: Tables, now: nat) {
    WithinCapacity(t, now) && Balanced(t) && WithinBudget(t, LimitsOf(g), now)
  }

  ghost predicate Inv(g: Settings, w: World) {
    TablesOk(g, w.s.tables, w.clock) && JobsOk(w.s) && WorkersOk(g, w)
  }

  lemma FreshPermit(w: World, permit: PermitId)
    requires Unused(w, permit)
    ensures permit !in w.s.tables.permits
  {
  }

  lemma AdmitKeepsArtifacts(t: Tables, limits: Limits, q: Request, id: PermitId, now: nat)
    ensures Admit(t, limits, q, id, now).0.artifacts == t.artifacts
  {
    hide Checked;
  }

  lemma CreateKeepsPermits(t: Tables, id: ArtifactId, project: ProjectId, size: nat, authorized: bool, now: nat)
    ensures Create(t, id, project, size, authorized, now).0.permits == t.permits
  {
    hide NoRoom;
  }

  // ---------- the tables keep their balance ----------

  lemma LaterOk(g: Settings, t: Tables, now: nat, later: nat)
    requires TablesOk(g, t, now) && now <= later
    ensures TablesOk(g, t, later)
  {
    forall p ensures Fits(t, p, later) {
      assert Fits(t, p, now);
      TimeFreesCapacity(t, p, now, later);
    }
    LaterWithinBudget(t, LimitsOf(g), now, later);
  }

  lemma AdmitOk(g: Settings, t: Tables, q: Request, id: PermitId, now: nat)
    requires TablesOk(g, t, now) && id !in t.permits
    ensures TablesOk(g, Admit(t, LimitsOf(g)(q.kind), q, id, now).0, now)
  {
    hide Admit;
    var limits := LimitsOf(g)(q.kind);
    forall p ensures Fits(Admit(t, limits, q, id, now).0, p, now) {
      assert Fits(t, p, now);
      AdmitFits(t, limits, q, id, now, p);
    }
    forall kind, day ensures UsageBalanced(Admit(t, limits, q, id, now).0, kind, day) {
      assert UsageBalanced(t, kind, day);
      AdmitBalanced(t, limits, q, id, now, kind, day);
    }
    AdmitWithinBudget(t, LimitsOf(g), q, id, now);
  }

  lemma ReleaseOk(g: Settings, t: Tables, id: PermitId, now: nat)
    requires TablesOk(g, t, now)
    ensures TablesOk(g, Release(t, id), now)
  {
    forall p ensures Fits(Release(t, id), p, now) {
      assert Fits(t, p, now);
      ReleaseGivesBack(t, id, p, now);
    }
    forall kind, day ensures UsageBalanced(Release(t, id), kind, day) {
      assert UsageBalanced(t, kind, day);
    }
    ReleaseWithinBudget(t, LimitsOf(g), id, now);
  }

  lemma CreateOk(g: Settings, t: Tables, id: ArtifactId, owner: ProjectId, size: nat, authorized: bool, now: nat)
    requires TablesOk(g, t, now) && id !in t.artifacts
    ensures TablesOk(g, Create(t, id, owner, size, authorized, now).0, now)
  {
    var after := Create(t, id, owner, size, authorized, now).0;
    forall p ensures Fits(after, p, now) {
      assert Fits(t, p, now);
      CreateFits(t, id, owner, size, authorized, now, p);
    }
    forall kind, day ensures UsageBalanced(after, kind, day) {
      assert UsageBalanced(t, kind, day);
    }
  }

  lemma RemoveOk(g: Settings, t: Tables, id: ArtifactId, owner: ProjectId, authorized: bool, referenced: bool, now: nat)
    requires TablesOk(g, t, now)
    ensures TablesOk(g, Remove(t, id, owner, authorized, referenced).0, now)
  {
    var after := Remove(t, id, owner, authorized, referenced).0;
    forall p ensures Fits(after, p, now) {
      assert Fits(t, p, now);
      RemoveFits(t, id, owner, authorized, referenced, now, p);
    }
    forall kind, day ensures UsageBalanced(after, kind, day) {
      assert UsageBalanced(t, kind, day);
    }
  }

  lemma TakePermitOk(g: Settings, t: Tables, q: Submission, now: nat)
    requires TablesOk(g, t, now) && q.permit !in t.permits
    ensures TablesOk(g, TakePermit(t, g, q, now).0, now)
  {
    AdmitOk(g, t, RenderRequest(g, q), q.permit, now);
  }

  lemma TakeSourceOk(g: Settings, t: Tables, q: Submission, now: nat)
    requires TablesOk(g, t, now) && (q.source.Upload? ==> q.source.id !in t.artifacts)
    ensures TablesOk(g, TakeSource(t, q, now).0, now)
  {
    if q.source.Upload? { CreateOk(g, t, q.source.id, q.project, q.source.size, true, now); }
  }

  lemma TablesKeep(g: Settings, w: World, op: Op, now: nat)
    requires Enabled(w, op, now) && TablesOk(g, w.s.tables, w.clock)
    ensures TablesOk(g, Step(g, w, op, now).s.tables, now)
  {
    hide TablesOk, Admit, Create, Remove, Unused;
    LaterOk(g, w.s.tables, w.clock, now);
    var s := w.s;
    match op
    case SubmitOp(job, q, authorized, ahead) =>
      FreshPermit(w, q.permit);
      TakePermitOk(g, s.tables, q, now);
      TakePermitGrows(s.tables, g, q, now);
      TakeSourceOk(g, TakePermit(s.tables, g, q, now).0, q, now);
    case RetryOp(job, original, q, authorized, bounded) =>
      FreshPermit(w, q.permit);
      if original in s.jobs { TakePermitOk(g, s.tables, q.(source := RenderJobs.Stored(s.jobs[original].source)), now); }
    case CommitOp(job, artifact, authorized) =>
      ReleaseOk(g, s.tables, w.workers[job].permitId, now);
      CreateOk(g, Release(s.tables, w.workers[job].permitId), artifact, s.jobs[job].project, w.workers[job].pc.size, true, now);
    case ReleaseOp(job) => ReleaseOk(g, s.tables, w.workers[job].permitId, now);
    case AdmitOp(request, permit) =>
      FreshPermit(w, permit);
      AdmitOk(g, s.tables, request, permit, now);
    case FreeOp(permit) => ReleaseOk(g, s.tables, permit, now);
    case UploadOp(artifact, project, size, authorized) => CreateOk(g, s.tables, artifact, project, size, authorized, now);
    case DeleteOp(artifact, project, authorized, referenced) =>
      RemoveOk(g, s.tables, artifact, project, authorized, referenced || Pictured(s.jobs, artifact), now);
    case _ =>
  }

  // ---------- jobs and workers keep theirs ----------

  /** No artifact and no live permit is lost. */
  ghost predicate Grows(t: Tables, after: Tables, now: nat) {
    && (forall a :: a in t.artifacts ==> a in after.artifacts && after.artifacts[a] == t.artifacts[a])
    && forall p :: p in t.permits && now < t.permits[p].expiresAt ==> p in after.permits && after.permits[p] == t.permits[p]
  }

  lemma TakePermitGrows(t: Tables, g: Settings, q: Submission, now: nat)
    requires q.permit !in t.permits
    ensures Grows(t, TakePermit(t, g, q, now).0, now) && TakePermit(t, g, q, now).0.artifacts == t.artifacts
    ensures q.configured && TakePermit(t, g, q, now).1 == None ==>
      q.permit in TakePermit(t, g, q, now).0.permits
      && TakePermit(t, g, q, now).0.permits[q.permit] == PermitFor(g.render, RenderRequest(g, q), now)
  {
    hide Checked;
  }

  lemma TakeSourceGrows(t: Tables, q: Submission, now: nat)
    requires q.source.Upload? ==> q.source.id !in t.artifacts
    ensures Grows(t, TakeSource(t, q, now).0, now) && TakeSource(t, q, now).0.permits == t.permits
    ensures TakeSource(t, q, now).1 == None ==> Stored(TakeSource(t, q, now).0, q.source.id, q.project)
  {
    hide NoRoom;
  }

  /** What accepting a job leaves behind. */
  ghost predicate Accepted(s: State, after: State, g: Settings, id: JobId, q: Submission, now: nat) {
    && Grows(s.tables, after.tables, now)
    && (exists source :: after.jobs == s.jobs[id := NewJob(q.(source := source), now)] && Stored(after.tables, source.id, q.project))
    && (q.configured ==> q.permit in after.tables.permits)
    && (q.configured ==> after.tables.permits[q.permit] == PermitFor(g.render, RenderRequest(g, q), now))
  }

  lemma SubmitOutcome(s: State, g: Settings, id: JobId, q: Submission, authorized: bool, ahead: bool, now: nat)
    requires q.permit !in s.tables.permits && (q.source.Upload? ==> q.source.id !in s.tables.artifacts)
    ensures var (after, failure) := Submit(s, g, id, q, authorized, ahead, now);
      if failure.Some? then after == s else Accepted(s, after, g, id, q, now)
  {
    TakePermitGrows(s.tables, g, q, now);
    TakeSourceGrows(TakePermit(s.tables, g, q, now).0, q, now);
    hide TakePermit, TakeSource, Sum;
    assert q.(source := q.source) == q;
  }

  lemma RetryOutcome(s: State, g: Settings, id: JobId, original: JobId, q: Submission, authorized: bool, bounded: bool, now: nat)
    requires q.permit !in s.tables.permits
    ensures var (after, failure) := Retry(s, g, id, original, q, authorized, bounded, now);
      if failure.Some? then after == s else Accepted(s, after, g, id, q, now)
  {
    if original in s.jobs {
      var stored := q.(source := RenderJobs.Stored(s.jobs[original].source));
      TakeSourceGrows(s.tables, stored, now);
      TakePermitGrows(s.tables, g, stored, now);
      assert TakeSource(s.tables, stored, now).0 == s.tables;
    }
    hide TakePermit, TakeSource, Sum;
  }

  lemma CommitOutcome(s: State, id: JobId, project: ProjectId, permit: PermitId, artifact: ArtifactId, size: nat, authorized: bool, aborted: bool, now: nat)
    requires artifact !in s.tables.artifacts && id in s.jobs
    ensures var (after, failure) := Commit(s, id, project, permit, artifact, size, authorized, aborted, now);
      || after == s
      || (&& failure == None && s.jobs[id].status == Running && !aborted && s.jobs[id].project == project
          && after.jobs == s.jobs[id := Job(project, Succeeded, s.jobs[id].source, Some(artifact), now)]
          && after.tables == Tables(s.tables.artifacts[artifact := Artifact(project, size)], s.tables.permits - {permit}, s.tables.usage))
  {
    hide NoRoom;
  }

  lemma OldJobsOk(s: State, t: Tables)
    requires JobsOk(s)
    requires forall a :: a in s.tables.artifacts ==> a in t.artifacts && t.artifacts[a] == s.tables.artifacts[a]
    ensures JobsOk(State(t, s.jobs))
  {
    forall id | id in s.jobs ensures JobOk(t, s.jobs[id]) {
      assert JobOk(s.tables, s.jobs[id]);
    }
  }

  lemma DeleteKeepsJobs(s: State, artifact: ArtifactId, project: ProjectId, authorized: bool, referenced: bool)
    requires JobsOk(s)
    ensures JobsOk(s.(tables := Remove(s.tables, artifact, project, authorized, referenced || Pictured(s.jobs, artifact)).0))
  {
    forall id | id in s.jobs
      ensures JobOk(Remove(s.tables, artifact, project, authorized, referenced || Pictured(s.jobs, artifact)).0, s.jobs[id])
    {
      assert JobOk(s.tables, s.jobs[id]);
      assert Shows(s.jobs[id], artifact) ==> Pictured(s.jobs, artifact);
    }
  }

  lemma JobsKeep(g: Settings, w: World, op: Op, now: nat)
    requires Enabled(w, op, now) && JobsOk(w.s)
    ensures JobsOk(Step(g, w, op, now).s)
  {
    hide Submit, Retry, Commit, Admit, Remove, Unused, Sum;
    var s, after := w.s, Step(g, w, op, now).s;
    match op
    case SubmitOp(job, q, authorized, ahead) =>
      FreshPermit(w, q.permit);
      SubmitOutcome(s, g, job, q, authorized, ahead, now);
      if after != s { OldJobsOk(s, after.tables); }
    case RetryOp(job, original, q, authorized, bounded) =>
      FreshPermit(w, q.permit);
      RetryOutcome(s, g, job, original, q, authorized, bounded, now);
      if after != s { OldJobsOk(s, after.tables); }
    case CommitOp(job, artifact, authorized) =>
      CommitOutcome(s, job, s.jobs[job].project, w.workers[job].permitId, artifact, w.workers[job].pc.size, authorized, w.workers[job].aborted, now);
      if after != s {
        assert JobOk(s.tables, s.jobs[job]);
        OldJobsOk(s, after.tables);
      }
    case DeleteOp(artifact, project, authorized, referenced) => DeleteKeepsJobs(s, artifact, project, authorized, referenced);
    case AdmitOp(request, permit) =>
      AdmitKeepsArtifacts(s.tables, g.assistant, request, permit, now);
      OldJobsOk(s, after.tables);
    case _ => OldJobsOk(s, after.tables);
  }

  /** Live permits and the projects of jobs survive, but for the permit `freed`. */
  ghost predicate Survive(s: State, after: State, freed: Option<PermitId>, now: nat) {
    && (forall id :: id in s.jobs ==> id in after.jobs && after.jobs[id].project == s.jobs[id].project)
    && forall p :: p in s.tables.permits && now < s.tables.permits[p].expiresAt && Some(p) != freed ==>
        p in after.tables.permits && after.tables.permits[p] == s.tables.permits[p]
  }

  /** Only the worker that takes the step may change its place. */
  lemma WorkersSurvive(g: Settings, w: World, after: World, actor: Option<JobId>, freed: Option<PermitId>)
    requires WorkersOk(g, w) && w.clock <= after.clock && Survive(w.s, after.s, freed, after.clock)
    requires forall j :: j in after.workers && Some(j) != actor ==> j in w.workers && after.workers[j] == w.workers[j]
    requires actor.Some? && actor.value in after.workers ==> WorkerOk(g, after, actor.value)
    requires actor.Some? && actor.value in after.workers ==>
      forall j :: j in w.workers && j != actor.value ==> w.workers[j].permitId != after.workers[actor.value].permitId
    requires freed.Some? ==> forall j :: j in w.workers && Some(j) != actor ==> Some(w.workers[j].permitId) != freed
    ensures WorkersOk(g, after)
  {
    forall j | j in after.workers ensures WorkerOk(g, after, j) {
      if Some(j) != actor { assert WorkerOk(g, w, j); }
    }
  }

  function Freed(w: World, op: Op): Option<PermitId> {
    match op
    case CommitOp(job, _, _) => if job in w.workers then Some(w.workers[job].permitId) else None
    case ReleaseOp(job) => if job in w.workers then Some(w.workers[job].permitId) else None
    case FreeOp(permit) => Some(permit)
    case _ => None
  }

  function Actor(op: Op): Option<JobId> {
    match op
    case SubmitOp(job, _, _, _) => Some(job)
    case RetryOp(job, _, _, _, _) => Some(job)
    case StartOp(job, _) => Some(job)
    case CheckOp(job) => Some(job)
    case GenerateOp(job, _) => Some(job)
    case CommitOp(job, _, _) => Some(job)
    case FailOp(job, _) => Some(job)
    case ReleaseOp(job) => Some(job)
    case CrashOp(job) => Some(job)
    case AbortOp(job) => Some(job)
    case _ => None
  }

  lemma AdmitSurvives(s: State, limits: Limits, q: Request, id: PermitId, now: nat)
    requires id !in s.tables.permits
    ensures Survive(s, s.(tables := Admit(s.tables, limits, q, id, now).0), None, now)
  {
    hide Checked;
  }

  lemma StepSurvives(g: Settings, w: World, op: Op, now: nat)
    requires Enabled(w, op, now)
    ensures Survive(w.s, Step(g, w, op, now).s, Freed(w, op), now)
  {
    hide Submit, Retry, Commit, Admit, Create, Unused, Sum;
    var s := w.s;
    match op
    case SubmitOp(job, q, authorized, ahead) =>
      FreshPermit(w, q.permit);
      SubmitOutcome(s, g, job, q, authorized, ahead, now);
    case RetryOp(job, original, q, authorized, bounded) =>
      FreshPermit(w, q.permit);
      RetryOutcome(s, g, job, original, q, authorized, bounded, now);
    case CommitOp(job, artifact, authorized) =>
      CommitOutcome(s, job, s.jobs[job].project, w.workers[job].permitId, artifact, w.workers[job].pc.size, authorized, w.workers[job].aborted, now);
    case AdmitOp(request, permit) =>
      FreshPermit(w, permit);
      AdmitSurvives(s, g.assistant, request, permit, now);
    case UploadOp(artifact, project, size, authorized) => CreateKeepsPermits(s.tables, artifact, project, size, authorized, now);
    case _ =>
  }

  lemma HiredOk(g: Settings, w: World, op: Op, now: nat)
    requires SettingsOk(g) && Enabled(w, op, now) && WorkersOk(g, w) && (op.SubmitOp? || op.RetryOp?)
    requires op.job in Step(g, w, op, now).workers
    ensures WorkerOk(g, Step(g, w, op, now), op.job)
    ensures Step(g, w, op, now).workers[op.job].permitId == op.q.permit
  {
    hide Submit, Retry, Unused, Sum;
    FreshPermit(w, op.q.permit);
    if op.SubmitOp? {
      SubmitOutcome(w.s, g, op.job, op.q, op.authorized, op.ahead, now);
    } else {
      RetryOutcome(w.s, g, op.job, op.original, op.q, op.authorized, op.bounded, now);
    }
  }

  lemma ActorOk(g: Settings, w: World, op: Op, now: nat)
    requires SettingsOk(g) && Enabled(w, op, now) && WorkersOk(g, w) && !op.SubmitOp? && !op.RetryOp?
    requires Actor(op).Some? && Actor(op).value in Step(g, w, op, now).workers
    ensures WorkerOk(g, Step(g, w, op, now), Actor(op).value)
    ensures Step(g, w, op, now).workers[Actor(op).value].permitId == w.workers[Actor(op).value].permitId
  {
    hide Sum, Create, Admit;
    assert WorkerOk(g, w, Actor(op).value);
  }

  lemma OnlyActorMoves(g: Settings, w: World, op: Op, now: nat)
    requires Enabled(w, op, now)
    ensures var after := Step(g, w, op, now);
      && after.clock == now
      && forall j :: j in after.workers && Some(j) != Actor(op) ==> j in w.workers && after.workers[j] == w.workers[j]
  {
    hide Submit, Retry, Commit, Admit, Create, Remove, Reconcile, Unused, Sum;
  }

  lemma WorkersKeep(g: Settings, w: World, op: Op, now: nat)
    requires SettingsOk(g) && Enabled(w, op, now) && WorkersOk(g, w)
    ensures WorkersOk(g, Step(g, w, op, now))
  {
    StepSurvives(g, w, op, now);
    OnlyActorMoves(g, w, op, now);
    var after := Step(g, w, op, now);
    if op.SubmitOp? || op.RetryOp? {
      if op.job in after.workers { HiredOk(g, w, op, now); }
    } else if Actor(op).Some? && Actor(op).value in after.workers {
      ActorOk(g, w, op, now);
    }
    hide Step, Survive, WorkerOk;
    WorkersSurvive(g, w, after, Actor(op), Freed(w, op));
  }
}

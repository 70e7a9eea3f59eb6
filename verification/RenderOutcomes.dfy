/** What each transaction on render jobs answers and leaves behind, and that a render which
    nothing interferes with gets its image stored. */
module RenderOutcomes {
  import opened Wrappers
  import opened MapSums
  import opened Capacity
  import opened RenderJobs
  import opened RenderRuns
  import opened RenderSafety

  const MEBIBYTE := 1024 * 1024

  // ---------- submission and retry ----------

  ghost function JobsOf(s: State, project: ProjectId): set<JobId> {
    set id | id in s.jobs && s.jobs[id].project == project
  }

  /** The project's history of renders is full. */
  ghost predicate HistoryIsFull(s: State, project: ProjectId) {
    |JobsOf(s, project)| >= 200
  }

  lemma HistoryMeans(s: State, project: ProjectId)
    ensures Sum(s.jobs, JobIn(project)) >= MAX_RENDER_JOBS <==> HistoryIsFull(s, project)
  {
    SumCounts(s.jobs, JobIn(project), JobsOf(s, project));
  }

  /** What the admission of a render asks for: one image of the size that may come back. */
  function Reservation(g: Settings, q: Submission): Request {
    Request(q.user, Kind.Render, q.tokens, Some(q.project), g.outputBytes, 1)
  }

  /** Without a provider nothing is asked for. */
  ghost function Admission(t: Tables, g: Settings, q: Submission, now: nat): (Tables, Option<Error>) {
    if q.configured then Admit(t, g.render, Reservation(g, q), q.permit, now) else (t, None)
  }

  predicate Available(t: Tables, artifact: ArtifactId, project: ProjectId) {
    artifact in t.artifacts && t.artifacts[artifact].project == project
  }

  /** What is wrong with a source image: its size, the room for it, or that there is none. */
  ghost function SourceFault(t: Tables, q: Submission, now: nat): Option<Failure> {
    match q.source
    case Upload(_, size) =>
      if size < 100 || size > 32 * MEBIBYTE then Some(BadImage)
      else if Holdings(t, q.project, now) >= 128 || Occupancy(t, q.project, now) + size > 256 * MEBIBYTE then Some(Refused(ArtifactCapacity))
      else None
    case Stored(id) =>
      if !Available(t, id, q.project) then Some(SourceMissing)
      else if t.artifacts[id].size > 32 * MEBIBYTE then Some(BadImage) else None
  }

  /** The first fault refuses a submission and undoes its admission; without one there is a new
      job on its source, queued or waiting to be configured. */
  lemma SubmitAnswers(s: State, g: Settings, id: JobId, q: Submission, authorized: bool, ahead: bool, now: nat)
    ensures var (after, failure) := Submit(s, g, id, q, authorized, ahead, now);
      var (admitted, refused) := Admission(s.tables, g, q, now);
      && failure == (if !authorized then Some(Forbidden) else if HistoryIsFull(s, q.project) then Some(HistoryFull)
                     else if ahead then Some(SourceAhead) else if refused.Some? then Some(Refused(refused.value))
                     else SourceFault(admitted, q, now))
      && if failure.Some? then after == s
         else
           && after.jobs == s.jobs[id := Job(q.project, if q.configured then Queued else Unconfigured, q.source.id, None, now)]
           && after.tables == if q.source.Stored? then admitted
                              else admitted.(artifacts := admitted.artifacts[q.source.id := Artifact(q.project, q.source.size)])
  {
    HistoryMeans(s, q.project);
    hide Sum, Admit, HistoryIsFull, Holdings, Occupancy;
  }

  /** A retry needs a finished job of the project whose source is still there. */
  lemma RetryAnswers(s: State, g: Settings, id: JobId, original: JobId, q: Submission, authorized: bool, bounded: bool, now: nat)
    ensures var (after, failure) := Retry(s, g, id, original, q, authorized, bounded, now);
      var (admitted, refused) := Admission(s.tables, g, q, now);
      var there := original in s.jobs && s.jobs[original].project == q.project;
      && failure == (if !authorized then Some(Forbidden) else if !there then Some(JobNotFound)
                     else if s.jobs[original].status == Queued || s.jobs[original].status == Running then Some(InvalidState)
                     else if HistoryIsFull(s, q.project) then Some(HistoryFull) else if !bounded then Some(InputTooLarge)
                     else if !(Available(s.tables, s.jobs[original].source, q.project)
                               && s.tables.artifacts[s.jobs[original].source].size <= 32 * MEBIBYTE) then Some(SourceMissing)
                     else if refused.Some? then Some(Refused(refused.value)) else None)
      && if failure.Some? then after == s
         else
           && after.jobs == s.jobs[id := Job(q.project, if q.configured then Queued else Unconfigured, s.jobs[original].source, None, now)]
           && after.tables == admitted
  {
    HistoryMeans(s, q.project);
    hide Sum, Admit, HistoryIsFull;
  }

  // ---------- the life of a job ----------

  predicate Pending(j: Job) {
    j.status == Queued || j.status == Running
  }

  /** Only the row of `id` differs, and only in its status. */
  predicate OnlyStatus(s: State, after: State, id: JobId, status: Status, now: nat)
    requires id in s.jobs
  {
    && after.tables == s.tables && after.jobs.Keys == s.jobs.Keys
    && (forall other :: other in s.jobs && other != id ==> after.jobs[other] == s.jobs[other])
    && after.jobs[id] == Job(s.jobs[id].project, status, s.jobs[id].source, s.jobs[id].output, now)
  }

  lemma StartAnswers(s: State, id: JobId, now: nat)
    ensures var after := MarkRunning(s, id, now);
      if id in s.jobs && s.jobs[id].status == Queued then OnlyStatus(s, after, id, Running, now) else after == s
  {
  }

  lemma FailAnswers(s: State, id: JobId, aborted: bool, now: nat)
    ensures var after := Fail(s, id, aborted, now);
      if id in s.jobs && Pending(s.jobs[id]) then OnlyStatus(s, after, id, if aborted then Cancelled else Failed, now) else after == s
  {
  }

  lemma CancelAnswers(s: State, id: JobId, project: ProjectId, authorized: bool, now: nat)
    ensures var (after, failure) := Cancel(s, id, project, authorized, now);
      var there := id in s.jobs && s.jobs[id].project == project;
      && failure == (if !authorized then Some(Forbidden) else if !there then Some(JobNotFound)
                     else if !Pending(s.jobs[id]) then Some(InvalidState) else None)
      && if failure.Some? then after == s else OnlyStatus(s, after, id, Cancelled, now)
  {
  }

  /** The image of a running job that is still wanted is stored in place of its reservation, or
      nothing changes. */
  lemma CommitAnswers(s: State, id: JobId, project: ProjectId, permit: PermitId, artifact: ArtifactId, size: nat,
                      authorized: bool, aborted: bool, now: nat)
    ensures var (after, failure) := Commit(s, id, project, permit, artifact, size, authorized, aborted, now);
      var freed := s.tables.(permits := s.tables.permits - {permit});
      if !authorized then after == s && failure == Some(Forbidden)
      else if !(id in s.jobs && s.jobs[id].project == project && s.jobs[id].status == Running && !aborted) then after == s && failure == None
      else if size == 0 || size > 64 * MEBIBYTE then after == s && failure == Some(Refused(ArtifactSize))
      else if Holdings(freed, project, now) >= 128 || Occupancy(freed, project, now) + size > 256 * MEBIBYTE then
        after == s && failure == Some(Refused(ArtifactCapacity))
      else
        && failure == None && after.jobs == s.jobs[id := Job(project, Succeeded, s.jobs[id].source, Some(artifact), now)]
        && after.tables == freed.(artifacts := freed.artifacts[artifact := Artifact(project, size)])
  {
    hide Holdings, Occupancy;
  }

  predicate RendersFor(p: Permit, project: ProjectId) {
    p.project == Some(project) && p.kind == Kind.Render
  }

  /** Recovery fails exactly the jobs that have been pending for longer than a request may take
      and 120 s, in projects without a live render reservation. */
  lemma ReconcileAnswers(s: State, g: Settings, now: nat, id: JobId)
    requires id in s.jobs
    ensures var after := Reconcile(s, g, now);
      && after.tables == s.tables && after.jobs.Keys == s.jobs.Keys
      && var lost := Pending(s.jobs[id]) && s.jobs[id].updatedAt + (g.render.timeoutMs + 999) / 1000 + 120 < now
           && forall p :: p in s.tables.permits && RendersFor(s.tables.permits[p], s.jobs[id].project) ==> s.tables.permits[p].expiresAt <= now;
         after.jobs[id] == if lost then s.jobs[id].(status := Failed, updatedAt := now) else s.jobs[id]
  {
    forall p | p in s.tables.permits && RendersFor(s.tables.permits[p], s.jobs[id].project)
      ensures ReservesFor(s.tables.permits[p], s.jobs[id].project, now) <==> now < s.tables.permits[p].expiresAt {}
  }

  /** An artifact can be deleted exactly if no render job shows it as source or output, and
      nothing else refers to it. */
  lemma DeletionAnswers(g: Settings, w: World, artifact: ArtifactId, project: ProjectId, authorized: bool, referenced: bool, now: nat)
    requires Enabled(w, DeleteOp(artifact, project, authorized, referenced), now) && Available(w.s.tables, artifact, project)
    ensures artifact !in Step(g, w, DeleteOp(artifact, project, authorized, referenced), now).s.tables.artifacts <==>
      (authorized && !referenced
       && forall id :: id in w.s.jobs ==> w.s.jobs[id].source != artifact && w.s.jobs[id].output != Some(artifact))
  {
    if id :| id in w.s.jobs && (w.s.jobs[id].source == artifact || w.s.jobs[id].output == Some(artifact)) {
      assert Shows(w.s.jobs[id], artifact);
    }
    assert forall id :: id in w.s.jobs && Shows(w.s.jobs[id], artifact) ==>
      w.s.jobs[id].source == artifact || w.s.jobs[id].output == Some(artifact);
  }

  // ---------- a render that nothing interferes with ----------

  /** The job and its worker are where they should be. */
  predicate OnTrack(w: World, job: JobId) {
    && job in w.workers && job in w.s.jobs && !w.workers[job].aborted
    && match w.workers[job].pc
       case Starting => w.s.jobs[job].status == Queued
       case Checking => w.s.jobs[job].status == Running
       case Generating => w.s.jobs[job].status == Running
       case Committing(_) => w.s.jobs[job].status == Running
       case _ => false
  }

  /** Nobody cancels, aborts or crashes the job, its submitter keeps access, and the provider
      answers with an image of a proper size. */
  predicate Spares(g: Settings, op: Op, job: JobId) {
    match op
    case StartOp(j, authorized) => j == job ==> authorized
    case GenerateOp(j, image) => j == job ==> image.Some? && 0 < image.value <= g.outputBytes
    case CommitOp(j, _, authorized) => j == job ==> authorized
    case CrashOp(j) => j != job
    case AbortOp(j) => j != job
    case CancelOp(j, _, authorized) => j != job
    case _ => true
  }

  /** The image is stored and shown. */
  predicate Rendered(w: World, job: JobId) {
    job in w.s.jobs && w.s.jobs[job].status == Succeeded && w.s.jobs[job].output.Some?
  }

  lemma OwnStep(g: Settings, w: World, op: Op, now: nat, job: JobId)
    requires SettingsOk(g) && Inv(g, w) && Enabled(w, op, now) && OnTrack(w, job) && Spares(g, op, job)
    requires now < w.workers[job].permit.expiresAt && Actor(op) == Some(job)
    ensures var after := Step(g, w, op, now);
      Rendered(after, job) || (OnTrack(after, job) && after.workers[job].permit == w.workers[job].permit)
  {
    if op.CommitOp? { CommitSucceeds(g, w, job, op.artifact, now); }
    hide Inv, Commit, Submit, Retry;
  }

  lemma CommitSucceeds(g: Settings, w: World, job: JobId, artifact: ArtifactId, now: nat)
    requires SettingsOk(g) && Inv(g, w) && Enabled(w, CommitOp(job, artifact, true), now) && OnTrack(w, job)
    requires now < w.workers[job].permit.expiresAt
    ensures Rendered(Step(g, w, CommitOp(job, artifact, true), now), job)
  {
    var (worker, project) := (w.workers[job], w.s.jobs[job].project);
    assert WorkerOk(g, w, job);
    LaterOk(g, w.s.tables, w.clock, now);
    assert Fits(w.s.tables, project, now);
    ReservationIsRoom(w.s.tables, worker.permitId, project, artifact, worker.pc.size, now);
    CommitAnswers(w.s, job, project, worker.permitId, artifact, worker.pc.size, true, false, now);
    hide Inv, Holdings, Occupancy, Commit;
  }

  lemma OthersStep(g: Settings, w: World, op: Op, now: nat, job: JobId)
    requires SettingsOk(g) && Inv(g, w) && Enabled(w, op, now) && OnTrack(w, job) && Spares(g, op, job)
    requires now < w.workers[job].permit.expiresAt && Actor(op) != Some(job)
    ensures var after := Step(g, w, op, now);
      job in after.workers && after.workers[job] == w.workers[job] && job in after.s.jobs && after.s.jobs[job].status == w.s.jobs[job].status
  {
    OnlyActorMoves(g, w, op, now);
    OthersLeaveJob(g, w, op, now, job);
    hide Step, Inv, Enabled;
  }

  lemma OthersLeaveJob(g: Settings, w: World, op: Op, now: nat, job: JobId)
    requires SettingsOk(g) && Inv(g, w) && Enabled(w, op, now) && OnTrack(w, job) && Spares(g, op, job)
    requires now < w.workers[job].permit.expiresAt && Actor(op) != Some(job)
    ensures job in Step(g, w, op, now).s.jobs && Step(g, w, op, now).s.jobs[job].status == w.s.jobs[job].status
  {
    var s := w.s;
    match op
    case SubmitOp(other, q, authorized, ahead) => SubmitAnswers(s, g, other, q, authorized, ahead, now);
    case RetryOp(other, original, q, authorized, bounded) => RetryAnswers(s, g, other, original, q, authorized, bounded, now);
    case ReconcileOp =>
      assert WorkerOk(g, w, job);
      ReconcileAnswers(s, g, now, job);
    case _ =>
  }

  /** In sight of its permit's expiry, a render is on its way or has its image. */
  lemma SparedStep(g: Settings, w: World, op: Op, now: nat, job: JobId)
    requires SettingsOk(g) && Inv(g, w) && Enabled(w, op, now) && OnTrack(w, job) && Spares(g, op, job)
    requires now < w.workers[job].permit.expiresAt
    ensures var after := Step(g, w, op, now);
      Rendered(after, job) || (OnTrack(after, job) && after.workers[job].permit == w.workers[job].permit)
  {
    if Actor(op) == Some(job) { OwnStep(g, w, op, now, job); } else { OthersStep(g, w, op, now, job); }
    hide Inv, Step, Enabled, Spares;
  }

  lemma RenderedStays(g: Settings, w: World, op: Op, now: nat, job: JobId)
    requires Enabled(w, op, now) && Rendered(w, job)
    ensures Rendered(Step(g, w, op, now), job)
  {
    FinalStep(g, w, op, now, job);
    hide Step, Enabled;
  }

  /** Every step of the run spares the job and comes before the permit runs out. */
  ghost predicate SparedBy(g: Settings, run: seq<Timed>, job: JobId, expiry: nat) {
    forall t :: t in run ==> Spares(g, t.op, job) && t.at < expiry
  }

  lemma {:induction false} SparedRun(g: Settings, w: World, run: seq<Timed>, job: JobId, expiry: nat)
    requires SettingsOk(g) && Inv(g, w) && Legal(g, w, run) && SparedBy(g, run, job, expiry)
    requires Rendered(w, job) || (OnTrack(w, job) && w.workers[job].permit.expiresAt == expiry)
    ensures var after := Exec(g, w, run); Rendered(after, job) || (OnTrack(after, job) && after.workers[job].permit.expiresAt == expiry)
    decreases |run|
  {
    hide Inv, Step, Enabled, Spares, OnTrack, Rendered;
    if run != [] {
      var (op, at) := (run[0].op, run[0].at);
      assert run[0] in run;
      StepKeeps(g, w, op, at);
      if Rendered(w, job) { RenderedStays(g, w, op, at, job); } else { SparedStep(g, w, op, at, job); }
      SparedRun(g, Step(g, w, op, at), run[1..], job, expiry);
    }
  }

  /** The step the worker is about to take. */
  ghost predicate NextIsEnabled(w: World, job: JobId, now: nat) {
    && (Enabled(w, StartOp(job, true), now) || Enabled(w, CheckOp(job), now) || (forall image :: Enabled(w, GenerateOp(job, image), now))
        || (forall artifact :: artifact !in w.s.tables.artifacts ==> Enabled(w, CommitOp(job, artifact, true), now)))
  }

  lemma TrackGoesOn(w: World, job: JobId, now: nat)
    requires OnTrack(w, job) && w.clock <= now
    ensures NextIsEnabled(w, job, now)
  {
  }

  lemma HiredIsOnTrack(g: Settings, w: World, op: Op, now: nat)
    requires Enabled(w, op, now) && (op.SubmitOp? || op.RetryOp?) && op.q.configured && op.job in Step(g, w, op, now).s.jobs
    ensures var after := Step(g, w, op, now);
      OnTrack(after, op.job) && after.workers[op.job].permit.expiresAt == now + (g.render.timeoutMs + 999) / 1000 + 30
  {
    if op.SubmitOp? {
      SubmitAnswers(w.s, g, op.job, op.q, op.authorized, op.ahead, now);
    } else {
      RetryAnswers(w.s, g, op.job, op.original, op.q, op.authorized, op.bounded, now);
    }
    hide Submit, Retry, Admission, SourceFault, HistoryIsFull;
  }

  /** A render that was accepted, and that nobody cancels, aborts or crashes, is on its way to
      its image for as long as its permit lasts, 30 s longer than a request may take: whatever
      else happens, its next step can be taken, until the image is stored and shown. */
  lemma SparedRenderSucceeds(g: Settings, run: seq<Timed>, t: Timed, rest: seq<Timed>, now: nat)
    requires SettingsOk(g) && Legal(g, EMPTY, run) && Enabled(Exec(g, EMPTY, run), t.op, t.at)
    requires (t.op.SubmitOp? || t.op.RetryOp?) && t.op.q.configured && t.op.job in Step(g, Exec(g, EMPTY, run), t.op, t.at).s.jobs
    requires Legal(g, Step(g, Exec(g, EMPTY, run), t.op, t.at), rest)
    requires SparedBy(g, rest, t.op.job, t.at + (g.render.timeoutMs + 999) / 1000 + 30)
    ensures var after := Exec(g, Step(g, Exec(g, EMPTY, run), t.op, t.at), rest);
      Rendered(after, t.op.job) || (OnTrack(after, t.op.job) && (after.clock <= now ==> NextIsEnabled(after, t.op.job, now)))
  {
    hide Inv, Step, Enabled, Spares, OnTrack, Rendered, SparedBy, NextIsEnabled;
    EmptyOk(g);
    Keeps(g, EMPTY, run);
    var w := Exec(g, EMPTY, run);
    StepKeeps(g, w, t.op, t.at);
    HiredIsOnTrack(g, w, t.op, t.at);
    SparedRun(g, Step(g, w, t.op, t.at), rest, t.op.job, t.at + (g.render.timeoutMs + 999) / 1000 + 30);
    var after := Exec(g, Step(g, w, t.op, t.at), rest);
    if OnTrack(after, t.op.job) && after.clock <= now { TrackGoesOn(after, t.op.job, now); }
  }
}

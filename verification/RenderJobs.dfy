/** Render jobs: their status machine, and the hand-over of a permit for the stored image. */
module RenderJobs {
  import opened Wrappers
  import opened MapSums
  import opened Capacity

  type JobId = nat

  const MAX_RENDER_JOBS := 200
  const MAX_SOURCE_BYTES := 32 * 1024 * 1024
  const MIN_SOURCE_BYTES := 100

  datatype Settings = Settings(render: Limits, assistant: Limits, outputBytes: nat)

  predicate SettingsOk(g: Settings) {
    1 <= g.outputBytes <= MAX_ARTIFACT_BYTES
  }

  function LimitsOf(g: Settings): Kind -> Limits {
    (kind: Kind) => if kind == Render then g.render else g.assistant
  }

  datatype Status = Queued | Running | Succeeded | Failed | Cancelled | Unconfigured

  datatype Job = Job(project: ProjectId, status: Status, source: ArtifactId, output: Option<ArtifactId>, updatedAt: nat)

  datatype State = State(tables: Tables, jobs: map<JobId, Job>)

  datatype Failure = Refused(error: Error) | Forbidden | JobNotFound | HistoryFull | SourceAhead | BadImage | SourceMissing | InvalidState | InputTooLarge

  datatype Source = Upload(id: ArtifactId, size: nat) | Stored(id: ArtifactId)

  /** `ahead`: of the project's revision. `configured`: the provider is. */
  datatype Submission = Submission(project: ProjectId, user: UserId, tokens: nat, source: Source, configured: bool, permit: PermitId)

  predicate Active(status: Status) {
    status == Queued || status == Running
  }

  function JobIn(project: ProjectId): (JobId, Job) -> nat {
    (id: JobId, j: Job) => if j.project == project then 1 else 0
  }

  function RenderRequest(g: Settings, q: Submission): Request {
    Request(q.user, Render, q.tokens, Some(q.project), g.outputBytes, 1)
  }

  /** The source image, uploaded or already stored. */
  ghost function TakeSource(t: Tables, q: Submission, now: nat): (Tables, Option<Failure>) {
    match q.source
    case Upload(id, size) =>
      if size < MIN_SOURCE_BYTES || size > MAX_SOURCE_BYTES then (t, Some(BadImage))
      else
        var (tables, error) := Create(t, id, q.project, size, true, now);
        (tables, if error.Some? then Some(Refused(error.value)) else None)
    case Stored(id) =>
      if id !in t.artifacts || t.artifacts[id].project != q.project then (t, Some(SourceMissing))
      else if t.artifacts[id].size > MAX_SOURCE_BYTES then (t, Some(BadImage))
      else (t, None)
  }

  ghost function TakePermit(t: Tables, g: Settings, q: Submission, now: nat): (Tables, Option<Failure>) {
    if !q.configured then (t, None)
    else
      var (tables, error) := Admit(t, g.render, RenderRequest(g, q), q.permit, now);
      (tables, if error.Some? then Some(Refused(error.value)) else None)
  }

  function NewJob(q: Submission, now: nat): Job {
    Job(q.project, if q.configured then Queued else Unconfigured, q.source.id, None, now)
  }

  /** One transaction: any failure undoes the admission as well. */
  ghost function Submit(s: State, g: Settings, id: JobId, q: Submission, authorized: bool, ahead: bool, now: nat): (State, Option<Failure>) {
    if !authorized then (s, Some(Forbidden))
    else if Sum(s.jobs, JobIn(q.project)) >= MAX_RENDER_JOBS then (s, Some(HistoryFull))
    else if ahead then (s, Some(SourceAhead))
    else
      var (admitted, refused) := TakePermit(s.tables, g, q, now);
      if refused.Some? then (s, refused)
      else
        var (sourced, failed) := TakeSource(admitted, q, now);
        if failed.Some? then (s, failed) else (State(sourced, s.jobs[id := NewJob(q, now)]), None)
  }

  /** A retry is a new job on the source of a finished one. `bounded`: its inputs still fit. */
  ghost function Retry(s: State, g: Settings, id: JobId, original: JobId, q: Submission, authorized: bool, bounded: bool, now: nat): (State, Option<Failure>) {
    if !authorized then (s, Some(Forbidden))
    else if original !in s.jobs || s.jobs[original].project != q.project then (s, Some(JobNotFound))
    else if Active(s.jobs[original].status) then (s, Some(InvalidState))
    else if Sum(s.jobs, JobIn(q.project)) >= MAX_RENDER_JOBS then (s, Some(HistoryFull))
    else if !bounded then (s, Some(InputTooLarge))
    else
      var stored := q.(source := Stored(s.jobs[original].source));
      var (t, failed) := TakeSource(s.tables, stored, now);
      if failed.Some? then (s, Some(SourceMissing))
      else
        var (admitted, refused) := TakePermit(t, g, stored, now);
        if refused.Some? then (s, refused) else (State(admitted, s.jobs[id := NewJob(stored, now)]), None)
  }

  function MarkRunning(s: State, id: JobId, now: nat): State {
    if id in s.jobs && s.jobs[id].status == Queued then s.(jobs := s.jobs[id := s.jobs[id].(status := Running, updatedAt := now)]) else s
  }

  /** The permit is given up and the image stored in one transaction. */
  ghost function Commit(s: State, id: JobId, project: ProjectId, permit: PermitId, artifact: ArtifactId, size: nat,
                        authorized: bool, aborted: bool, now: nat): (State, Option<Failure>) {
    if !authorized then (s, Some(Forbidden))
    else if id !in s.jobs || s.jobs[id].project != project || s.jobs[id].status != Running || aborted then (s, None)
    else
      var (tables, error) := Create(Release(s.tables, permit), artifact, project, size, true, now);
      if error.Some? then (s, Some(Refused(error.value)))
      else (State(tables, s.jobs[id := s.jobs[id].(status := Succeeded, output := Some(artifact), updatedAt := now)]), None)
  }

  function Fail(s: State, id: JobId, aborted: bool, now: nat): State {
    if id in s.jobs && Active(s.jobs[id].status)
    then s.(jobs := s.jobs[id := s.jobs[id].(status := if aborted then Cancelled else Failed, updatedAt := now)])
    else s
  }

  function Cancel(s: State, id: JobId, project: ProjectId, authorized: bool, now: nat): (State, Option<Failure>) {
    if !authorized then (s, Some(Forbidden))
    else if id !in s.jobs || s.jobs[id].project != project then (s, Some(JobNotFound))
    else if !Active(s.jobs[id].status) then (s, Some(InvalidState))
    else (s.(jobs := s.jobs[id := s.jobs[id].(status := Cancelled, updatedAt := now)]), None)
  }

  /** A live render reservation in the project speaks for all its jobs. */
  ghost predicate Interrupted(s: State, g: Settings, id: JobId, now: nat)
    requires id in s.jobs
  {
    && Active(s.jobs[id].status)
    && s.jobs[id].updatedAt + (g.render.timeoutMs + 999) / 1000 + 120 < now
    && !exists p :: p in s.tables.permits && ReservesFor(s.tables.permits[p], s.jobs[id].project, now)
  }

  predicate ReservesFor(p: Permit, project: ProjectId, now: nat) {
    p.project == Some(project) && p.kind == Render && p.expiresAt > now
  }

  ghost function Reconcile(s: State, g: Settings, now: nat): State {
    s.(jobs := map id | id in s.jobs :: if Interrupted(s, g, id, now) then s.jobs[id].(status := Failed, updatedAt := now) else s.jobs[id])
  }

  /** Source and output images of render jobs cannot be deleted. */
  predicate Pictured(jobs: map<JobId, Job>, artifact: ArtifactId) {
    exists id :: id in jobs && Shows(jobs[id], artifact)
  }

  predicate Shows(j: Job, artifact: ArtifactId) {
    j.source == artifact || j.output == Some(artifact)
  }
}

/** What every run of rendering keeps. */
module RenderSafety {
  import opened Wrappers
  import opened MapSums
  import opened Capacity
  import opened RenderJobs
  import opened RenderRuns

  datatype Timed = Timed(op: Op, at: nat)

  const EMPTY := World(State(Tables(map[], map[], map[]), map[]), map[], 0)

  ghost predicate Legal(g: Settings, w: World, run: seq<Timed>)
    decreases |run|
  {
    run == [] || (Enabled(w, run[0].op, run[0].at) && Legal(g, Step(g, w, run[0].op, run[0].at), run[1..]))
  }

  ghost function Exec(g: Settings, w: World, run: seq<Timed>): World
    requires Legal(g, w, run)
    decreases |run|
  {
    if run == [] then w else Exec(g, Step(g, w, run[0].op, run[0].at), run[1..])
  }

  lemma StepKeeps(g: Settings, w: World, op: Op, now: nat)
    requires SettingsOk(g) && Inv(g, w) && Enabled(w, op, now)
    ensures Inv(g, Step(g, w, op, now))
  {
    TablesKeep(g, w, op, now);
    JobsKeep(g, w, op, now);
    WorkersKeep(g, w, op, now);
    hide Step, TablesOk, JobsOk, WorkersOk, Enabled;
    OnlyActorMoves(g, w, op, now);
  }

  lemma EmptyOk(g: Settings)
    ensures Inv(g, EMPTY)
  {
    assert Sum(EMPTY.s.tables.artifacts, (id: ArtifactId, a: Artifact) => 0) == 0;
  }

  lemma {:induction false} Keeps(g: Settings, w: World, run: seq<Timed>)
    requires SettingsOk(g) && Inv(g, w) && Legal(g, w, run)
    ensures Inv(g, Exec(g, w, run))
    decreases |run|
  {
    hide Step, Inv, Enabled;
    if run != [] {
      StepKeeps(g, w, run[0].op, run[0].at);
      Keeps(g, Step(g, w, run[0].op, run[0].at), run[1..]);
    }
  }

  /** In every run: stored artifacts and live reservations stay within 128 and 256 MiB per
      project, users' charges sum to the installation's, no budget or concurrency limit is
      passed, a job has an output exactly when it succeeded, and its images are stored. */
  lemma Reachable(g: Settings, run: seq<Timed>)
    requires SettingsOk(g) && Legal(g, EMPTY, run)
    ensures var w := Exec(g, EMPTY, run);
      && (forall p :: Fits(w.s.tables, p, w.clock))
      && (forall kind, day :: UsageBalanced(w.s.tables, kind, day))
      && WithinBudget(w.s.tables, LimitsOf(g), w.clock)
      && (forall id :: id in w.s.jobs ==> JobOk(w.s.tables, w.s.jobs[id]))
  {
    EmptyOk(g);
    Keeps(g, EMPTY, run);
  }

  /** A render that ends while its permit is live always stores its image, whatever uploads,
      admissions, deletions and other renders the project saw since. */
  lemma LiveRenderStores(g: Settings, run: seq<Timed>, job: JobId, artifact: ArtifactId, now: nat)
    requires SettingsOk(g) && Legal(g, EMPTY, run)
    requires Enabled(Exec(g, EMPTY, run), CommitOp(job, artifact, true), now)
    requires var w := Exec(g, EMPTY, run);
      w.s.jobs[job].status == Running && !w.workers[job].aborted && now < w.workers[job].permit.expiresAt
    ensures var (w, after) := (Exec(g, EMPTY, run), Step(g, Exec(g, EMPTY, run), CommitOp(job, artifact, true), now));
      && after.s.jobs[job].status == Succeeded && after.s.jobs[job].output == Some(artifact)
      && after.s.tables.artifacts == w.s.tables.artifacts[artifact := Artifact(w.s.jobs[job].project, w.workers[job].pc.size)]
      && w.workers[job].permitId !in after.s.tables.permits
  {
    EmptyOk(g);
    Keeps(g, EMPTY, run);
    var w := Exec(g, EMPTY, run);
    var (worker, project) := (w.workers[job], w.s.jobs[job].project);
    assert WorkerOk(g, w, job);
    LaterOk(g, w.s.tables, w.clock, now);
    assert Fits(w.s.tables, project, now);
    ReservationIsRoom(w.s.tables, worker.permitId, project, artifact, worker.pc.size, now);
  }

  // ---------- the status machine ----------

  predicate Final(status: Status) {
    !Active(status)
  }

  lemma FinalStep(g: Settings, w: World, op: Op, now: nat, id: JobId)
    requires Enabled(w, op, now) && id in w.s.jobs
    ensures id in Step(g, w, op, now).s.jobs
    ensures Final(w.s.jobs[id].status) ==> Step(g, w, op, now).s.jobs[id] == w.s.jobs[id]
    ensures var after := Step(g, w, op, now).s.jobs[id];
      after.status == Succeeded && w.s.jobs[id].status != Succeeded ==>
        op.CommitOp? && op.job == id && w.s.jobs[id].status == Running && after.output == Some(op.artifact)
        && op.artifact !in w.s.tables.artifacts && w.workers[id].pc.Committing? && !w.workers[id].aborted
        && Step(g, w, op, now).s.tables.artifacts == w.s.tables.artifacts[op.artifact := Artifact(w.s.jobs[id].project, w.workers[id].pc.size)]
  {
    hide Submit, Retry, Commit, Admit, Create, Unused, Sum;
    var s := w.s;
    match op
    case SubmitOp(job, q, authorized, ahead) =>
      FreshPermit(w, q.permit);
      SubmitOutcome(s, g, job, q, authorized, ahead, now);
    case RetryOp(job, original, q, authorized, bounded) =>
      FreshPermit(w, q.permit);
      RetryOutcome(s, g, job, original, q, authorized, bounded, now);
    case CommitOp(job, artifact, authorized) =>
      CommitOutcome(s, job, s.jobs[job].project, w.workers[job].permitId, artifact, w.workers[job].pc.size, authorized, w.workers[job].aborted, now);
    case _ =>
  }

  /** A finished job never changes again: succeeded, failed, cancelled and unconfigured absorb. */
  lemma {:induction false} FinalForever(g: Settings, w: World, run: seq<Timed>, id: JobId)
    requires Legal(g, w, run) && id in w.s.jobs && Final(w.s.jobs[id].status)
    ensures id in Exec(g, w, run).s.jobs && Exec(g, w, run).s.jobs[id] == w.s.jobs[id]
    decreases |run|
  {
    hide Step, Enabled;
    if run != [] {
      FinalStep(g, w, run[0].op, run[0].at, id);
      FinalForever(g, Step(g, w, run[0].op, run[0].at), run[1..], id);
    }
  }

  /** A cancelled job never gets an output, even if its image arrives later. */
  lemma CancelWins(g: Settings, run: seq<Timed>, id: JobId, project: ProjectId, rest: seq<Timed>, now: nat)
    requires SettingsOk(g) && Legal(g, EMPTY, run)
    requires Enabled(Exec(g, EMPTY, run), CancelOp(id, project, true), now)
    requires Cancel(Exec(g, EMPTY, run).s, id, project, true, now).1 == None
    requires Legal(g, Step(g, Exec(g, EMPTY, run), CancelOp(id, project, true), now), rest)
    ensures var after := Exec(g, Step(g, Exec(g, EMPTY, run), CancelOp(id, project, true), now), rest).s;
      id in after.jobs && after.jobs[id].status == Cancelled && after.jobs[id].output == None
  {
    var w := Exec(g, EMPTY, run);
    EmptyOk(g);
    Keeps(g, EMPTY, run);
    assert JobOk(w.s.tables, w.s.jobs[id]);
    FinalForever(g, Step(g, w, CancelOp(id, project, true), now), rest, id);
  }

  /** Crash recovery never fails a job whose worker still holds a live permit. */
  lemma ReconcileSparesLive(g: Settings, run: seq<Timed>, job: JobId, now: nat)
    requires SettingsOk(g) && Legal(g, EMPTY, run) && Enabled(Exec(g, EMPTY, run), ReconcileOp, now)
    requires var w := Exec(g, EMPTY, run);
      job in w.workers && w.workers[job].pc != Releasing && now < w.workers[job].permit.expiresAt
    ensures job in Exec(g, EMPTY, run).s.jobs
    ensures Reconcile(Exec(g, EMPTY, run).s, g, now).jobs[job] == Exec(g, EMPTY, run).s.jobs[job]
  {
    var w := Exec(g, EMPTY, run);
    EmptyOk(g);
    Keeps(g, EMPTY, run);
    assert WorkerOk(g, w, job);
    assert ReservesFor(w.s.tables.permits[w.workers[job].permitId], w.s.jobs[job].project, now);
  }
}

/** What all parties other than one worker do, carried out on the authority, and what it
    leaves that worker: as long as its claim stays live, its staged rows. */
module WorkerTraffic {
  import opened NativeJobRuns
  import opened NativeJobStore
  import opened NativeJobs
  import opened WorkerAuthority
  import opened WorkerInvariants
  import opened WorkerRuns
  import opened WorkerSafety
  import opened WorkerStaging
  import opened WorkerUpload
  import opened WorkerUploadRuns
  import opened Wrappers

  // ---------- steps between two calls of a worker ----------

  /** Steps of others, and the instant at which the worker acts next. */
  datatype Pause = Pause(steps: seq<WorldTimed>, at: int)

  ghost function Played(w: World, steps: seq<WorldTimed>): World
    decreases |steps|
  {
    if steps == [] then w else Played(WorldStep(w, steps[0].op, steps[0].at), steps[1..])
  }

  /** Legal steps in the order of time, none of which stages under the token. */
  ghost predicate OfOthers(w: World, since: int, p: Pause, token: Token)
    decreases |p.steps|
  {
    if p.steps == [] then since <= p.at
    else
      && since <= p.steps[0].at && WorldFresh(w, p.steps[0].op) && !StagesUnder(p.steps[0].op, token)
      && OfOthers(WorldStep(w, p.steps[0].op, p.steps[0].at), p.steps[0].at, Pause(p.steps[1..], p.at), token)
  }

  /** Whatever the others do, the claim is live when its worker acts next. */
  ghost predicate Harmless(w: World, since: int, p: Pause, g: Grant) {
    OfOthers(w, since, p, g.ticket.token) && LiveClaim(Played(w, p.steps).table, g.ticket.id, g.ticket.token, p.at)
  }

  lemma SameThrough(w: World, between: World, after: World, c: Ticket)
    requires SameAttempt(w, between, c) && SameAttempt(between, after, c)
    ensures SameAttempt(w, after, c)
  {
    forall i | 0 <= i < MAX_OUTPUTS ensures SameRow(w, after, Key(c.id, c.token, i)) {
      assert SameRow(w, between, Key(c.id, c.token, i)) && SameRow(between, after, Key(c.id, c.token, i));
    }
  }

  lemma FirstHarmless(w: World, since: int, p: Pause, g: Grant)
    requires p.steps != [] && Harmless(w, since, p, g)
    ensures since <= p.steps[0].at && WorldFresh(w, p.steps[0].op) && !StagesUnder(p.steps[0].op, g.ticket.token)
    ensures Harmless(WorldStep(w, p.steps[0].op, p.steps[0].at), p.steps[0].at, Pause(p.steps[1..], p.at), g)
    ensures Played(w, p.steps) == Played(WorldStep(w, p.steps[0].op, p.steps[0].at), p.steps[1..])
  {
    hide WorldStep, WorldFresh, StagesUnder, LiveClaim;
  }

  /** Through harmless steps the claim stays live, granted, and in possession of its rows. */
  lemma {:induction false} HarmlessKeeps(w: World, since: int, p: Pause, g: Grant)
    requires WorldInv(w, since) && g in w.grants && Harmless(w, since, p, g)
    ensures LiveClaim(w.table, g.ticket.id, g.ticket.token, since)
    ensures since <= p.at && g in Played(w, p.steps).grants && WorldInv(Played(w, p.steps), p.at)
    ensures SameAttempt(w, Played(w, p.steps), g.ticket)
    decreases |p.steps|
  {
    hide WorldStep, WorldInv, WorldFresh, LiveClaim, StagesUnder;
    if p.steps == [] {
      LiveSooner(w.table, g.ticket, p.at, since);
      WorldInvLater(w, since, p.at);
    } else {
      hide Harmless, Played, SameAttempt;
      FirstHarmless(w, since, p, g);
      var (op, at) := (p.steps[0].op, p.steps[0].at);
      var next := WorldStep(w, op, at);
      WorldInvLater(w, since, at);
      WorldStepKeeps(w, op, at);
      GrantsStay(w, op, at);
      HarmlessKeeps(next, at, Pause(p.steps[1..], p.at), g);
      GrantIsDrawn(w, g, at);
      LiveBeforeStep(w, op, at, g.ticket);
      LiveSooner(w.table, g.ticket, at, since);
      StepSparesAttempt(w, op, g, at);
      SameThrough(w, next, Played(next, p.steps[1..]), g.ticket);
    }
  }

  // ---------- the steps carried out ----------

  /** One transaction of the queue. */
  method Transact(store: JobStore, op: Op, now: int)
    requires store.Valid() && store.clock <= now && Fresh(store.Model(), op)
    modifies store
    ensures store.Valid() && store.clock == now
    ensures store.Model() == Step(old(store.Model()), op, now)
  {
    match op
    case SubmitOp(r) => var _ := store.Submit(r, now);
    case CancelOp(project, id, authorized) => var _ := store.Cancel(project, id, authorized, now);
    case DeleteOp(project, id, authorized) => var _ := store.Delete(project, id, authorized, now);
    case ClaimOp(q) => var _ := store.Claim(q, now);
    case ResolveOp(c, authorized) => var _ := store.Resolve(c, authorized, now);
    case RenewOp(c, authorized) => var _ := store.Renew(c, authorized, now);
    case FailOp(c, text) => store.Fail(c, text, now);
    case FinishOp(c, d) => var _ := store.Finish(c, d, now);
  }

  /** Deleting a job deletes its staged rows. */
  method TransactAndCascade(a: Authority, op: Op, now: int)
    requires a.Valid() && a.store.clock <= now && Fresh(a.store.Model(), op)
    modifies a, a.store
    ensures a.Valid() && a.store.clock <= now
    ensures a.Model() == WorldStep(old(a.Model()), Queue(op), now)
  {
    QueueKeeps(a.Model(), op, a.Later(now));
    hide WorldInv, NativeJobInvariants.Inv, Step, Fresh;
    Transact(a.store, op, now);
    a.rows := map k | k in a.rows && k.job in a.store.jobs :: a.rows[k];
  }

  /** One step of any party. */
  method Serve(a: Authority, op: WorldOp, now: int)
    requires a.Valid() && a.store.clock <= now && WorldFresh(a.Model(), op)
    modifies a, a.store
    ensures a.Valid() && a.store.clock <= now
    ensures a.Model() == WorldStep(old(a.Model()), op, now)
  {
    hide WorldInv, NativeJobInvariants.Inv, Step, Cascade, RemoteClaim, RemoteRenew, Enter, Stage, Complete, FailJob;
    match op
    case Queue(op) => TransactAndCascade(a, op, now);
    case ClaimRemote(r) => var _ := a.CreateClaim(r, now);
    case RenewRemote(call) => var _ := a.RenewClaim(call, now);
    case ReadInput(call) => var _ := a.WithClaim(call, now);
    case StagePart(call, p) => var _ := a.StageOutput(call, p, now);
    case CompleteRemote(call, bound, room) => var _ := a.CompleteJob(call, bound, room, now);
    case FailRemote(call, text) => var _ := a.FailClaim(call, text, now);
  }

  /** Everything others do until the worker acts again. */
  method Others(a: Authority, p: Pause, ghost g: Grant, ghost since: int)
    requires a.Valid() && a.store.clock <= since && g in a.grants && Harmless(a.Model(), since, p, g)
    modifies a, a.store
    ensures a.Valid() && a.store.clock <= p.at
    ensures a.Model() == Played(old(a.Model()), p.steps)
    decreases |p.steps|
  {
    hide WorldInv, WorldStep, WorldFresh, Harmless, NativeJobInvariants.Inv;
    if p.steps != [] {
      FirstHarmless(a.Model(), since, p, g);
      GrantsStay(a.Model(), p.steps[0].op, p.steps[0].at);
      Serve(a, p.steps[0].op, p.steps[0].at);
      Others(a, Pause(p.steps[1..], p.at), g, p.steps[0].at);
    } else {
      WorldInvLater(a.Model(), a.store.clock, since);
      HarmlessKeeps(a.Model(), since, p, g);
    }
  }
}

/** Whole runs of the authority: any interleaving of queue transactions and remote
    worker calls. Every such run is, row for row, a run of the job queue. */
module WorkerRuns {
  import opened Wrappers
  import opened NativeJobs
  import opened NativeJobInvariants
  import opened NativeJobRuns
  import opened NativeJobSafety
  import opened WorkerStaging
  import opened WorkerInvariants

  datatype WorldOp =
    | Queue(op: Op)
    | ClaimRemote(r: RemoteRequest)
    | RenewRemote(call: Call)
    | ReadInput(call: Call)
    | StagePart(call: Call, p: Part)
    | CompleteRemote(call: Call, bound: bool, room: nat)
    | FailRemote(call: Call, text: string)

  ghost function WorldStep(w: World, op: WorldOp, now: int): World {
    match op
    case Queue(op) => Cascade(w.(table := Step(w.table, op, now)))
    case ClaimRemote(r) => RemoteClaim(w, r, now).0
    case RenewRemote(call) => RemoteRenew(w, call, now).0
    case ReadInput(call) => Enter(w, call, now).0
    case StagePart(call, p) => Stage(w, call, p, now).0
    case CompleteRemote(call, bound, room) => Complete(w, call, bound, room, now).0
    case FailRemote(call, text) => FailJob(w, call, text, now).0
  }

  ghost predicate WorldFresh(w: World, op: WorldOp) {
    match op
    case Queue(op) => Fresh(w.table, op)
    case ClaimRemote(r) => r.token !in w.table.drawnTokens
    case _ => true
  }

  lemma WorldStepKeeps(w: World, op: WorldOp, now: int)
    requires WorldInv(w, now) && WorldFresh(w, op)
    ensures WorldInv(WorldStep(w, op, now), now)
  {
    hide WorldInv;
    match op
    case Queue(op) => QueueKeeps(w, op, now);
    case ClaimRemote(r) => RemoteClaimKeeps(w, r, now);
    case RenewRemote(call) => RenewWorldKeeps(w, call, now);
    case ReadInput(call) => EnterKeeps(w, call, now);
    case StagePart(call, p) => StageKeeps(w, call, p, now);
    case CompleteRemote(call, bound, room) => CompleteKeeps(w, call, bound, room, now);
    case FailRemote(call, text) => FailWorldKeeps(w, call, text, now);
  }

  // ---------- the queue transactions behind a call ----------

  ghost function Exec(t: Table, ops: seq<Op>, now: int): Table
    decreases |ops|
  {
    if ops == [] then t else Exec(Step(t, ops[0], now), ops[1..], now)
  }

  ghost function ResolveOps(w: World, call: Call, now: int): seq<Op> {
    if GrantError(w, call, now) == None then [ResolveOp(call.grant.ticket, call.authorized)] else []
  }

  ghost function TableOps(w: World, op: WorldOp, now: int): seq<Op> {
    match op
    case Queue(op) => [op]
    case ClaimRemote(r) =>
      if r.kinds == {} || !(r.kinds <= r.registered) then []
      else
        var ticket := Claim(w.table, AsClaim(r), now).1;
        [ClaimOp(AsClaim(r))] + if ticket.Some? && !r.inputOk then [FailOp(ticket.value, "JOB_INPUT_INVALID")] else []
    case RenewRemote(call) =>
      ResolveOps(w, call, now) + if Enter(w, call, now).1 == None then [RenewOp(call.grant.ticket, call.authorized)] else []
    case ReadInput(call) => ResolveOps(w, call, now)
    case StagePart(call, p) => if WellFormed(p) then ResolveOps(w, call, now) else []
    case CompleteRemote(call, bound, room) => ResolveOps(w, call, now) + FinishOps(w, call, bound, room, now)
    case FailRemote(call, text) =>
      ResolveOps(w, call, now) + if Enter(w, call, now).1 == None then [FailOp(call.grant.ticket, text)] else []
  }

  ghost function FinishOps(w: World, call: Call, bound: bool, room: nat, now: int): seq<Op> {
    var c := call.grant.ticket;
    var outputs := Collect(w.rows, c.id, c.token, MAX_OUTPUTS, now);
    if Enter(w, call, now).1 == None && bound && StagedCount(w.rows, c.id, c.token, MAX_OUTPUTS) > 0
       && StagedBytes(w.rows, c.id, c.token, MAX_OUTPUTS) <= MAX_OUTPUT_BYTES && outputs.Ok?
    then [FinishOp(c, Delivery(outputs.value, true, call.authorized, room))] else []
  }

  lemma ExecOne(t: Table, a: Op, now: int)
    ensures Exec(t, [a], now) == Step(t, a, now)
  {
    hide Step;
    assert [a][1..] == [];
  }

  lemma ExecTwo(t: Table, a: Op, b: Op, now: int)
    ensures Exec(t, [a] + [b], now) == Step(Step(t, a, now), b, now)
  {
    hide Step;
    assert ([a] + [b])[1..] == [b];
    ExecOne(Step(t, a, now), b, now);
  }

  lemma ResolveIs(w: World, call: Call, now: int)
    ensures Exec(w.table, ResolveOps(w, call, now), now) == Enter(w, call, now).0.table
    ensures Enter(w, call, now).1 == None ==> ResolveOps(w, call, now) == [ResolveOp(call.grant.ticket, call.authorized)]
  {
    ExecOne(w.table, ResolveOp(call.grant.ticket, call.authorized), now);
  }

  lemma ThenOne(w: World, call: Call, next: Op, now: int)
    requires Enter(w, call, now).1 == None
    ensures Exec(w.table, ResolveOps(w, call, now) + [next], now) == Step(w.table, next, now)
  {
    ResolveIs(w, call, now);
    ActiveChangesNothing(w, call, now);
    ExecTwo(w.table, ResolveOp(call.grant.ticket, call.authorized), next, now);
    ExecOne(w.table, ResolveOp(call.grant.ticket, call.authorized), now);
  }

  lemma {:induction false} FailedFinishStays(t: Table, c: Ticket, d: Delivery, now: int)
    ensures Finish(t, c, d, now).1.Err? ==> Finish(t, c, d, now).0 == t
  {}

  /** The job rows change exactly as the listed queue transactions change them. */
  lemma Projects(w: World, op: WorldOp, now: int)
    ensures WorldStep(w, op, now).table == Exec(w.table, TableOps(w, op, now), now)
  {
    match op
    case Queue(op) => ExecOne(w.table, op, now);
    case ClaimRemote(r) => ClaimProjects(w, r, now);
    case RenewRemote(call) =>
      ResolveIs(w, call, now);
      ActiveChangesNothing(w, call, now);
      hide Enter;
      if Enter(w, call, now).1 == None { ThenOne(w, call, RenewOp(call.grant.ticket, call.authorized), now); }
      else { assert TableOps(w, op, now) == ResolveOps(w, call, now); }
    case ReadInput(call) => ResolveIs(w, call, now);
    case StagePart(call, p) => ResolveIs(w, call, now);
    case CompleteRemote(call, bound, room) => CompleteProjects(w, call, bound, room, now);
    case FailRemote(call, text) =>
      ResolveIs(w, call, now);
      ActiveChangesNothing(w, call, now);
      hide Enter;
      if Enter(w, call, now).1 == None { ThenOne(w, call, FailOp(call.grant.ticket, text), now); }
      else { assert TableOps(w, op, now) == ResolveOps(w, call, now); }
  }

  lemma ClaimProjects(w: World, r: RemoteRequest, now: int)
    ensures RemoteClaim(w, r, now).0.table == Exec(w.table, TableOps(w, ClaimRemote(r), now), now)
  {
    hide Claim, Fail;
    var ticket := Claim(w.table, AsClaim(r), now).1;
    if ticket.Some? && !r.inputOk {
      ExecTwo(w.table, ClaimOp(AsClaim(r)), FailOp(ticket.value, "JOB_INPUT_INVALID"), now);
    } else {
      assert [ClaimOp(AsClaim(r))] + [] == [ClaimOp(AsClaim(r))];
      ExecOne(w.table, ClaimOp(AsClaim(r)), now);
    }
  }

  lemma CompleteProjects(w: World, call: Call, bound: bool, room: nat, now: int)
    ensures Complete(w, call, bound, room, now).0.table == Exec(w.table, TableOps(w, CompleteRemote(call, bound, room), now), now)
  {
    ResolveIs(w, call, now);
    ActiveChangesNothing(w, call, now);
    hide Enter, Collect, StagedBytes, StagedCount;
    if FinishOps(w, call, bound, room, now) == [] {
      assert TableOps(w, CompleteRemote(call, bound, room), now) == ResolveOps(w, call, now);
    } else {
      var c := call.grant.ticket;
      var d := Delivery(Collect(w.rows, c.id, c.token, MAX_OUTPUTS, now).value, true, call.authorized, room);
      ThenOne(w, call, FinishOp(c, d), now);
      FailedFinishStays(w.table, c, d, now);
      hide Finish;
    }
  }

  // ---------- runs ----------

  datatype WorldTimed = WorldTimed(op: WorldOp, at: int)

  type WorldRun = seq<WorldTimed>

  const NOTHING := World(EMPTY, map[], {})

  ghost function WorldAt(run: WorldRun, i: nat): World
    requires i <= |run|
  {
    if i == 0 then NOTHING else WorldStep(WorldAt(run, i - 1), run[i - 1].op, run[i - 1].at)
  }

  ghost predicate WorldFreshAt(run: WorldRun, i: nat)
    requires i < |run|
  {
    WorldFresh(WorldAt(run, i), run[i].op)
  }

  ghost predicate WorldLegal(run: WorldRun) {
    && (forall i :: 0 <= i < |run| ==> WorldFreshAt(run, i))
    && (forall i, k :: 0 <= i <= k < |run| ==> run[i].at <= run[k].at)
  }

  lemma WorldInvLater(w: World, now: int, later: int)
    requires WorldInv(w, now) && now <= later
    ensures WorldInv(w, later)
  {
    InvLater(w.table, now, later);
  }

  /** Every reachable authority state tiles its outputs, keeps each attempt within 8 files
      and 32 MiB, and backs every staged row by a grant. */
  lemma {:induction false} WorldReachable(run: WorldRun, i: nat, now: int)
    requires WorldLegal(run) && i <= |run| && (i > 0 ==> run[i - 1].at <= now)
    ensures WorldInv(WorldAt(run, i), now)
  {
    if i == 0 {
      Reachable([], 0, now);
      forall job, token ensures StagedBytes(NOTHING.rows, job, token, MAX_OUTPUTS) <= MAX_OUTPUT_BYTES {
        NothingStaged(job, token, MAX_OUTPUTS);
      }
    } else {
      hide WorldStep, WorldInv;
      WorldReachable(run, i - 1, run[i - 1].at);
      assert WorldFreshAt(run, i - 1);
      WorldStepKeeps(WorldAt(run, i - 1), run[i - 1].op, run[i - 1].at);
      WorldInvLater(WorldAt(run, i), run[i - 1].at, now);
    }
  }

  lemma {:induction false} NothingStaged(job: JobId, token: Token, n: nat)
    ensures StagedBytes(map[], job, token, n) == 0
  {
    if n > 0 { NothingStaged(job, token, n - 1); }
  }
}

/** Safety of the authority over whole runs: the queue's theorems carry over, staged data
    of a live claim survives everything others do, and what a claim publishes was staged
    under its own token. */
module WorkerSafety {
  import opened Wrappers
  import opened NativeJobs
  import opened NativeJobInvariants
  import opened NativeJobRuns
  import opened NativeJobSafety
  import opened WorkerStaging
  import opened WorkerInvariants
  import opened WorkerRuns

  // ---------- every authority run is a queue run ----------

  ghost function Stamp(ops: seq<Op>, at: int): Run
    ensures |Stamp(ops, at)| == |ops|
    ensures forall i :: 0 <= i < |ops| ==> Stamp(ops, at)[i] == Timed(ops[i], at)
  {
    seq(|ops|, i requires 0 <= i < |ops| => Timed(ops[i], at))
  }

  ghost function Flat(run: WorldRun, i: nat): Run
    requires i <= |run|
  {
    if i == 0 then []
    else Flat(run, i - 1) + Stamp(TableOps(WorldAt(run, i - 1), run[i - 1].op, run[i - 1].at), run[i - 1].at)
  }

  lemma {:induction false} PrefixState(run: Run, more: Run, i: nat)
    requires i <= |run|
    ensures StateAt(run + more, i) == StateAt(run, i)
  {
    hide Step;
    if i > 0 {
      PrefixState(run, more, i - 1);
      assert (run + more)[i - 1] == run[i - 1];
    }
  }

  lemma Snoc(run: Run, next: Timed)
    requires Legal(run) && Fresh(StateAt(run, |run|), next.op)
    requires run != [] ==> run[|run| - 1].at <= next.at
    ensures Legal(run + [next])
    ensures StateAt(run + [next], |run| + 1) == Step(StateAt(run, |run|), next.op, next.at)
  {
    hide Step, Fresh;
    PrefixState(run, [next], |run|);
    forall i | 0 <= i < |run| + 1 ensures FreshAt(run + [next], i) {
      if i < |run| {
        PrefixState(run, [next], i);
        assert FreshAt(run, i);
        assert (run + [next])[i] == run[i];
      }
    }
  }

  /** Only the first queue transaction of a call draws from the random generator. */
  ghost predicate OneDraw(t: Table, ops: seq<Op>) {
    (ops != [] ==> Fresh(t, ops[0])) && forall i :: 0 < i < |ops| ==> !ops[i].SubmitOp? && !ops[i].ClaimOp?
  }

  lemma LaterDraws(t: Table, next: Table, ops: seq<Op>)
    requires OneDraw(t, ops) && ops != []
    ensures Fresh(t, ops[0]) && OneDraw(next, ops[1..])
  {
    if |ops| > 1 { assert ops[1..][0] == ops[1]; }
  }

  lemma {:induction false} Extend(run: Run, ops: seq<Op>, at: int)
    requires Legal(run) && OneDraw(StateAt(run, |run|), ops)
    requires run != [] ==> run[|run| - 1].at <= at
    ensures Legal(run + Stamp(ops, at))
    ensures StateAt(run + Stamp(ops, at), |run| + |ops|) == Exec(StateAt(run, |run|), ops, at)
    ensures run + Stamp(ops, at) != [] ==> (run + Stamp(ops, at))[|run + Stamp(ops, at)| - 1].at <= at
    decreases |ops|
  {
    hide Step, OneDraw, Fresh, Legal, StateAt;
    if ops == [] {
      assert run + Stamp(ops, at) == run;
    } else {
      var next := Timed(ops[0], at);
      LaterDraws(StateAt(run, |run|), StateAt(run + [next], |run| + 1), ops);
      Snoc(run, next);
      assert run + Stamp(ops, at) == (run + [next]) + Stamp(ops[1..], at);
      Extend(run + [next], ops[1..], at);
    }
  }

  lemma DrawsOnce(w: World, op: WorldOp, now: int)
    requires WorldFresh(w, op)
    ensures OneDraw(w.table, TableOps(w, op, now))
  {
    hide Claim, Enter, Collect, StagedCount, StagedBytes, GrantError;
  }

  /** The flattened run so far is legal, ends where the authority's rows are, and in time. */
  ghost predicate Flattened(run: WorldRun, i: nat)
    requires i <= |run|
  {
    && Legal(Flat(run, i)) && StateAt(Flat(run, i), |Flat(run, i)|) == WorldAt(run, i).table
    && (Flat(run, i) != [] ==> i > 0 && Flat(run, i)[|Flat(run, i)| - 1].at <= run[i - 1].at)
  }

  lemma FlatStep(run: WorldRun, i: nat)
    requires i < |run|
    ensures Flat(run, i + 1) == Flat(run, i) + Stamp(TableOps(WorldAt(run, i), run[i].op, run[i].at), run[i].at)
    ensures WorldAt(run, i + 1) == WorldStep(WorldAt(run, i), run[i].op, run[i].at)
  {
  }

  lemma RefineOne(flat: Run, w: World, op: WorldOp, at: int)
    requires Legal(flat) && StateAt(flat, |flat|) == w.table && WorldFresh(w, op)
    requires flat != [] ==> flat[|flat| - 1].at <= at
    ensures var next := flat + Stamp(TableOps(w, op, at), at);
      && Legal(next) && StateAt(next, |next|) == WorldStep(w, op, at).table
      && (next != [] ==> next[|next| - 1].at <= at)
  {
    hide *;
    DrawsOnce(w, op, at);
    Projects(w, op, at);
    Extend(flat, TableOps(w, op, at), at);
  }

  lemma RefineStep(run: WorldRun, i: nat)
    requires WorldLegal(run) && i < |run| && Flattened(run, i)
    ensures Flattened(run, i + 1)
  {
    FlatStep(run, i);
    assert WorldFreshAt(run, i) && (i > 0 ==> run[i - 1].at <= run[i].at);
    hide Flat, WorldAt, StateAt, WorldStep, TableOps, WorldFresh, Legal, WorldLegal, Stamp;
    RefineOne(Flat(run, i), WorldAt(run, i), run[i].op, run[i].at);
  }

  /** The rows of an authority run are the rows of a legal run of the queue. */
  lemma {:induction false} Refines(run: WorldRun, i: nat)
    requires WorldLegal(run) && i <= |run|
    ensures Legal(Flat(run, i))
    ensures StateAt(Flat(run, i), |Flat(run, i)|) == WorldAt(run, i).table
    ensures Flat(run, i) != [] ==> i > 0 && Flat(run, i)[|Flat(run, i)| - 1].at <= run[i - 1].at
  {
    hide WorldLegal, WorldStep, TableOps, Step;
    if i > 0 {
      Refines(run, i - 1);
      RefineStep(run, i - 1);
    }
  }

  lemma {:induction false} FlatPrefix(run: WorldRun, i: nat, k: nat)
    requires i <= k <= |run|
    ensures |Flat(run, i)| <= |Flat(run, k)| && Flat(run, k)[..|Flat(run, i)|] == Flat(run, i)
    decreases k
  {
    hide TableOps;
    if i < k { FlatPrefix(run, i, k - 1); }
  }

  /** Step i of the run publishes outputs of job `id` through a remote completion. */
  ghost predicate Publishes(run: WorldRun, i: nat, id: JobId)
    requires i < |run|
  {
    && run[i].op.CompleteRemote? && run[i].op.call.grant.ticket.id == id
    && Complete(WorldAt(run, i), run[i].op.call, run[i].op.bound, run[i].op.room, run[i].at).1 == Ok(true)
  }

  /** A successful completion is one resolved claim followed by one publication. */
  lemma CompletionPublishes(w: World, call: Call, bound: bool, room: nat, now: int)
    requires Complete(w, call, bound, room, now).1 == Ok(true)
    ensures var c := call.grant.ticket;
      && Enter(w, call, now).1 == None
      && Collect(w.rows, c.id, c.token, MAX_OUTPUTS, now).Ok?
      && var d := Delivery(Collect(w.rows, c.id, c.token, MAX_OUTPUTS, now).value, true, call.authorized, room);
         TableOps(w, CompleteRemote(call, bound, room), now) == [ResolveOp(c, call.authorized), FinishOp(c, d)]
         && EventOf(w.table, FinishOp(c, d), now) == Publication(c.id, c.token, d.outputs)
         && Complete(w, call, bound, room, now).0.table == Finish(w.table, c, d, now).0
  {
    ActiveChangesNothing(w, call, now);
    ResolveIs(w, call, now);
    hide Enter, Collect, StagedCount, StagedBytes;
  }

  /** Of all completions of one job, over any run of the authority, at most one publishes. */
  lemma CompletesOnce(run: WorldRun, i: nat, k: nat, id: JobId)
    requires WorldLegal(run) && i < |run| && k < |run| && Publishes(run, i, id) && Publishes(run, k, id)
    ensures i == k
  {
    hide TableOps, WorldStep, Complete, EventOf, Step, Publishes;
    var n := |run|;
    Refines(run, n);
    var a := FlatPublication(run, i, id);
    var b := FlatPublication(run, k, id);
    PublishesOnce(Flat(run, n), a, b);
    if i < k { FlatPrefix(run, i + 1, k); } else if k < i { FlatPrefix(run, k + 1, i); }
  }

  /** The second of two stamped transactions, the first of which changes nothing. */
  lemma SecondEvent(flat: Run, before: Run, ops: seq<Op>, now: int)
    requires |ops| == 2 && |before| + 2 <= |flat| && flat[..|before| + 2] == before + Stamp(ops, now)
    requires Step(StateAt(before, |before|), ops[0], now) == StateAt(before, |before|)
    ensures EventAt(flat, |before| + 1) == EventOf(StateAt(before, |before|), ops[1], now)
  {
    hide Step, EventOf;
    var n := |before|;
    var stamped := before + Stamp(ops, now);
    assert flat == before + flat[n..] by {
      assert flat[..n] == flat[..n + 2][..n] == stamped[..n] == before;
    }
    assert flat[n] == flat[..n + 2][n] == stamped[n] == Timed(ops[0], now);
    assert flat[n + 1] == flat[..n + 2][n + 1] == stamped[n + 1] == Timed(ops[1], now);
    PrefixState(before, flat[n..], n);
    assert StateAt(flat, n + 1) == StateAt(flat, n);
  }

  ghost function OpsAt(run: WorldRun, i: nat): seq<Op>
    requires i < |run|
  {
    TableOps(WorldAt(run, i), run[i].op, run[i].at)
  }

  lemma PublishingOps(run: WorldRun, i: nat, id: JobId)
    requires i < |run| && Publishes(run, i, id)
    ensures var (t, ops, now) := (WorldAt(run, i).table, OpsAt(run, i), run[i].at);
      && |ops| == 2 && Step(t, ops[0], now) == t
      && EventOf(t, ops[1], now).Publication? && EventOf(t, ops[1], now).id == id
  {
    var w, op, now := WorldAt(run, i), run[i].op, run[i].at;
    CompletionPublishes(w, op.call, op.bound, op.room, now);
    hide TableOps, EventOf, Complete, Collect;
    ActiveChangesNothing(w, op.call, now);
    ResolveIs(w, op.call, now);
    ExecOne(w.table, ResolveOp(op.call.grant.ticket, op.call.authorized), now);
  }

  lemma FlatNext(run: WorldRun, i: nat)
    requires i < |run|
    ensures Flat(run, i + 1) == Flat(run, i) + Stamp(OpsAt(run, i), run[i].at)
  {
    hide TableOps;
  }

  /** Where that publication sits in the flattened run. */
  lemma FlatPublication(run: WorldRun, i: nat, id: JobId) returns (at: nat)
    requires WorldLegal(run) && i < |run| && Publishes(run, i, id)
    ensures Legal(Flat(run, |run|)) && |Flat(run, i)| <= at < |Flat(run, i + 1)| <= |Flat(run, |run|)|
    ensures EventAt(Flat(run, |run|), at).Publication? && EventAt(Flat(run, |run|), at).id == id
  {
    hide *;
    PublishingOps(run, i, id);
    FlatNext(run, i);
    Refines(run, i);
    Refines(run, |run|);
    FlatPrefix(run, i + 1, |run|);
    SecondEvent(Flat(run, |run|), Flat(run, i), OpsAt(run, i), run[i].at);
    at := |Flat(run, i)| + 1;
  }

  // ---------- staged data of a live claim ----------

  /** A grant outlives its job, so cleanup never takes rows of a live uncancelled claim. */
  lemma CleanupSparesLive(w: World, now: int, k: Key)
    requires WorldInv(w, now) && k in w.rows && LiveClaim(w.table, k.job, k.token, now)
    ensures k in Cleanup(w, now).rows && Cleanup(w, now).rows[k] == w.rows[k]
  {
    assert Granted(w, k);
    var g :| g in w.grants && g.ticket.id == k.job && g.ticket.token == k.token && w.rows[k].expiresAt == g.expiresAt;
    assert GrantOk(w, g);
  }

  /** Liveness can only be lost: alive after a queue transaction means alive before it. */
  lemma LiveBefore(t: Table, op: Op, now: int, c: Ticket)
    requires Inv(t, now) && Fresh(t, op) && c.token in t.drawnTokens && c.id in t.drawnIds
    requires LiveClaim(Step(t, op, now), c.id, c.token, now)
    ensures LiveClaim(t, c.id, c.token, now)
    ensures c.token in Step(t, op, now).drawnTokens && c.id in Step(t, op, now).drawnIds
  {
    StepIsOk(t, op, now);
    var after := Step(t, op, now);
    var same := Ticket(c.id, c.token, after.jobs[c.id].project, c.kind, c.input, c.digest);
    if !Held(t, same, now) { LostStep(t, op, now, same); }
    hide Step, EventOf;
    assert RowOk(t, after, EventOf(t, op, now), c.id);
  }

  lemma {:induction false} LiveBeforeAll(t: Table, ops: seq<Op>, now: int, c: Ticket)
    requires Inv(t, now) && OneDraw(t, ops) && c.token in t.drawnTokens && c.id in t.drawnIds
    requires LiveClaim(Exec(t, ops, now), c.id, c.token, now)
    ensures LiveClaim(t, c.id, c.token, now)
    decreases |ops|
  {
    hide Step;
    if ops != [] {
      var next := Step(t, ops[0], now);
      StepKeeps(t, ops[0], now);
      StepIsOk(t, ops[0], now);
      assert OneDraw(next, ops[1..]) by { if |ops| > 1 { assert ops[1..][0] == ops[1]; } }
      LiveBeforeAll(next, ops[1..], now, c);
      LiveBefore(t, ops[0], now, c);
    }
  }

  predicate StagesUnder(op: WorldOp, token: Token) { op.StagePart? && op.call.grant.ticket.token == token }

  predicate SameRow(w: World, after: World, key: Key) {
    (key in after.rows <==> key in w.rows) && (key in w.rows ==> after.rows[key] == w.rows[key])
  }

  lemma ClaimSparesLive(w: World, r: RemoteRequest, now: int, key: Key)
    requires WorldInv(w, now) && LiveClaim(w.table, key.job, key.token, now)
    ensures SameRow(w, RemoteClaim(w, r, now).0, key)
  {
    hide Claim, Fail, LiveClaim, WorldInv;
    if key in w.rows { CleanupSparesLive(w, now, key); }
  }

  lemma CompletionSparesOthers(w: World, call: Call, bound: bool, room: nat, now: int, c: Ticket, key: Key)
    requires WorldInv(w, now) && key.job == c.id && key.token == c.token
    requires LiveClaim(Complete(w, call, bound, room, now).0.table, c.id, c.token, now)
    ensures SameRow(w, Complete(w, call, bound, room, now).0, key)
  {
    EndedIsNotLive(w, call, bound, room, "", now, c);
    ActiveChangesNothing(w, call, now);
    hide Enter, Collect, StagedCount, StagedBytes, Finish, LiveClaim, WorldInv;
  }

  lemma FailingSparesOthers(w: World, call: Call, text: string, now: int, c: Ticket, key: Key)
    requires WorldInv(w, now) && key.job == c.id && key.token == c.token
    requires LiveClaim(FailJob(w, call, text, now).0.table, c.id, c.token, now)
    ensures SameRow(w, FailJob(w, call, text, now).0, key)
  {
    EndedIsNotLive(w, call, false, 0, text, now, c);
    ActiveChangesNothing(w, call, now);
    hide Enter, Fail, LiveClaim, WorldInv;
  }

  lemma StagingSparesOthers(w: World, call: Call, p: Part, now: int, key: Key)
    requires call.grant.ticket.token != key.token
    ensures SameRow(w, Stage(w, call, p, now).0, key)
  {
    hide Resolve, Accept;
  }

  /** Whatever a step does, a claim that is live after it was live before it. */
  lemma LiveBeforeStep(w: World, op: WorldOp, now: int, c: Ticket)
    requires WorldInv(w, now) && WorldFresh(w, op) && c.token in w.table.drawnTokens && c.id in w.table.drawnIds
    requires LiveClaim(WorldStep(w, op, now).table, c.id, c.token, now)
    ensures LiveClaim(w.table, c.id, c.token, now)
  {
    hide WorldStep, TableOps, WorldFresh, LiveClaim;
    Projects(w, op, now);
    DrawsOnce(w, op, now);
    LiveBeforeAll(w.table, TableOps(w, op, now), now, c);
  }

  /** Whatever happens while a claim stays live, its staged outputs change only through
      parts sent under its own token. */
  lemma OthersKeepAttempt(w: World, op: WorldOp, now: int, c: Ticket, index: nat)
    requires WorldInv(w, now) && WorldFresh(w, op) && c.token in w.table.drawnTokens && c.id in w.table.drawnIds
    requires !StagesUnder(op, c.token)
    requires LiveClaim(WorldStep(w, op, now).table, c.id, c.token, now)
    ensures LiveClaim(w.table, c.id, c.token, now)
    ensures SameRow(w, WorldStep(w, op, now), Key(c.id, c.token, index))
  {
    LiveBeforeStep(w, op, now, c);
    var key := Key(c.id, c.token, index);
    match op
    case ClaimRemote(r) => ClaimSparesLive(w, r, now, key);
    case StagePart(call, p) => StagingSparesOthers(w, call, p, now, key);
    case CompleteRemote(call, bound, room) => CompletionSparesOthers(w, call, bound, room, now, c, key);
    case FailRemote(call, text) => FailingSparesOthers(w, call, text, now, c, key);
    case Queue(op) => QueueSparesRow(w, op, now, key);
    case _ => RenewSparesRow(w, op.call, now, key);
  }

  lemma QueueSparesRow(w: World, op: Op, now: int, key: Key)
    requires key.job in Step(w.table, op, now).jobs
    ensures SameRow(w, WorldStep(w, Queue(op), now), key)
  {
    hide Step;
  }

  lemma RenewSparesRow(w: World, call: Call, now: int, key: Key)
    ensures SameRow(w, RemoteRenew(w, call, now).0, key) && SameRow(w, Enter(w, call, now).0, key)
  {
    hide Resolve, Renew;
  }

  /** An attempt whose rows are dropped has ended, so it is not the live one. */
  lemma EndedIsNotLive(w: World, call: Call, bound: bool, room: nat, text: string, now: int, c: Ticket)
    requires WorldInv(w, now)
    ensures call.grant.ticket.id == c.id && call.grant.ticket.token == c.token ==>
      (Complete(w, call, bound, room, now).1 == Ok(true) ==> !LiveClaim(Complete(w, call, bound, room, now).0.table, c.id, c.token, now))
      && (FailJob(w, call, text, now).1 == Ok(true) ==> !LiveClaim(FailJob(w, call, text, now).0.table, c.id, c.token, now))
  {
    if Complete(w, call, bound, room, now).1 == Ok(true) { CompletionPublishes(w, call, bound, room, now); }
    ActiveChangesNothing(w, call, now);
  }
}

/** What the breaker promises over whole runs. */
module CircuitSafety {
  import opened Wrappers
  import opened CircuitBreaker
  import opened CircuitRuns

  // ---------- results of an earlier generation ----------

  /** A result whose generation has passed changes no row; it can only evict idle ones. */
  lemma StaleResultIgnored(c: Settings, limit: nat, w: World, t: Timed)
    requires LimitOk(limit) && Inv(c, w) && Allowed(w, limit, t) && t.op.CompleteOp?
    requires !Matches(w.states, w.flights[t.op.id].permit)
    ensures Step(c, w, t).states == Swept(w.states, t.sweptAt)
  {
    SweepSparesFlights(c, limit, w, t, t.op.id);
  }

  /** The store never refuses a result for want of room. */
  lemma ResultIsRecorded(c: Settings, limit: nat, w: World, t: Timed)
    requires LimitOk(limit) && Inv(c, w) && Allowed(w, limit, t) && t.op.CompleteOp?
    ensures Complete(c, w.states, w.flights[t.op.id].permit, t.op.verdict, t.sweptAt, t.at).1
  {
    SweepSparesFlights(c, limit, w, t, t.op.id);
  }

  /** Steps that end a generation: a probe is let through, the circuit opens, a probe
      succeeds, or the circuit is reset. */
  predicate Supersedes(c: Settings, w: World, t: Timed, key: Key) {
    match t.op
    case AcquireOp(k, _) =>
      k == key && Acquire(c, w.states, k, t.sweptAt, t.at).1.Ok? && Acquire(c, w.states, k, t.sweptAt, t.at).1.value.probe
    case CompleteOp(id, verdict) =>
      && id in w.flights && w.flights[id].permit.key == key && Matches(w.states, w.flights[id].permit)
      && (verdict == Success ==> w.flights[id].permit.probe)
      && (verdict == Failure ==> w.flights[id].permit.probe || w.states[key].failures + 1 >= c.threshold)
      && verdict != Cancelled
    case LostOp(_) => false
    case ResetOp(k) => k == key
  }

  predicate EndsFlight(t: Timed, id: PermitId) {
    (t.op.CompleteOp? || t.op.LostOp?) && t.op.id == id
  }

  lemma GenerationStep(c: Settings, limit: nat, w: World, t: Timed, id: PermitId)
    requires LimitOk(limit) && Inv(c, w) && Allowed(w, limit, t) && id in w.flights && !EndsFlight(t, id)
    ensures id in Step(c, w, t).flights && Step(c, w, t).flights[id] == w.flights[id]
    ensures w.flights[id].permit.key in w.states && w.flights[id].permit.key in Step(c, w, t).states
    ensures var key := w.flights[id].permit.key;
      Step(c, w, t).states[key].generation == w.states[key].generation + if Supersedes(c, w, t, key) then 1 else 0
  {
    SweepSparesFlights(c, limit, w, t, id);
  }

  /** `id` is out during the whole run. */
  predicate Outstanding(run: seq<Timed>, id: PermitId) {
    forall i :: 0 <= i < |run| ==> !EndsFlight(run[i], id)
  }

  function Generations(c: Settings, w: World, run: seq<Timed>, key: Key): nat
    decreases |run|
  {
    if run == [] then 0
    else (if Supersedes(c, w, run[0], key) then 1 else 0) + Generations(c, Step(c, w, run[0]), run[1..], key)
  }

  /** While a permit is out its circuit is never evicted, so generations never restart: they
      grow by one for each superseding step, and the permit still matches at the end exactly
      when it matched at the start and nothing superseded it. */
  lemma {:induction false} MatchesIffNotSuperseded(c: Settings, limit: nat, w: World, run: seq<Timed>, id: PermitId)
    requires SettingsOk(c) && LimitOk(limit) && Inv(c, w) && Legal(c, limit, w, run)
    requires id in w.flights && Outstanding(run, id)
    ensures var (key, after) := (w.flights[id].permit.key, Exec(c, w, run));
      && id in after.flights && after.flights[id] == w.flights[id]
      && key in w.states && key in after.states
      && after.states[key].generation == w.states[key].generation + Generations(c, w, run, key)
    ensures Matches(Exec(c, w, run).states, w.flights[id].permit)
      <==> Matches(w.states, w.flights[id].permit) && Generations(c, w, run, w.flights[id].permit.key) == 0
    decreases |run|
  {
    hide Step, Supersedes;
    assert FlightOk(w.states, w.flights[id], w.clock);
    if run != [] {
      assert !EndsFlight(run[0], id);
      GenerationStep(c, limit, w, run[0], id);
      StepKeeps(c, limit, w, run[0]);
      MatchesIffNotSuperseded(c, limit, Step(c, w, run[0]), run[1..], id);
    }
  }

  // ---------- what `failures` counts ----------

  function Failures(w: World, key: Key): nat {
    if key in w.states then w.states[key].failures else 0
  }

  predicate MatchingResult(w: World, t: Timed, key: Key, verdict: Verdict) {
    && t.op.CompleteOp? && t.op.verdict == verdict
    && t.op.id in w.flights && w.flights[t.op.id].permit.key == key && Matches(w.states, w.flights[t.op.id].permit)
  }

  /** A success of the current generation, a reset that took effect, or an eviction. */
  predicate Clears(c: Settings, w: World, t: Timed, key: Key) {
    || MatchingResult(w, t, key, Success)
    || (t.op == ResetOp(key) && Reset(c, w.states, key, t.sweptAt, t.at).1)
    || (!t.op.LostOp? && key in w.states && Expired(w.states[key], t.sweptAt)
        && (key !in Step(c, w, t).states || (t.op.AcquireOp? && t.op.key == key && Acquire(c, w.states, key, t.sweptAt, t.at).1.Ok?)))
  }

  lemma FailuresStep(c: Settings, limit: nat, w: World, t: Timed, key: Key)
    requires LimitOk(limit) && Inv(c, w) && Allowed(w, limit, t)
    ensures Clears(c, w, t, key) ==> Failures(Step(c, w, t), key) == 0
    ensures !Clears(c, w, t, key) ==>
      Failures(Step(c, w, t), key) == Failures(w, key) + if MatchingResult(w, t, key, Failure) then 1 else 0
  {
    if t.op.CompleteOp? { SweepSparesFlights(c, limit, w, t, t.op.id); }
  }

  function CountFailures(c: Settings, w: World, run: seq<Timed>, key: Key): nat
    decreases |run|
  {
    if run == [] then 0
    else (if MatchingResult(w, run[0], key, Failure) then 1 else 0) + CountFailures(c, Step(c, w, run[0]), run[1..], key)
  }

  ghost predicate NeverClears(c: Settings, w: World, run: seq<Timed>, key: Key)
    decreases |run|
  {
    run != [] ==> !Clears(c, w, run[0], key) && NeverClears(c, Step(c, w, run[0]), run[1..], key)
  }

  /** `failures` is the number of current-generation failures since the last clearing step. */
  lemma {:induction false} FailuresAreCounted(c: Settings, limit: nat, w: World, t: Timed, run: seq<Timed>, key: Key)
    requires SettingsOk(c) && LimitOk(limit) && Inv(c, w) && Allowed(w, limit, t) && Clears(c, w, t, key)
    requires Legal(c, limit, Step(c, w, t), run) && NeverClears(c, Step(c, w, t), run, key)
    ensures Failures(Exec(c, Step(c, w, t), run), key) == CountFailures(c, Step(c, w, t), run, key)
  {
    FailuresStep(c, limit, w, t, key);
    StepKeeps(c, limit, w, t);
    FailuresAdd(c, limit, Step(c, w, t), run, key);
  }

  lemma {:induction false} FailuresAdd(c: Settings, limit: nat, w: World, run: seq<Timed>, key: Key)
    requires SettingsOk(c) && LimitOk(limit) && Inv(c, w) && Legal(c, limit, w, run) && NeverClears(c, w, run, key)
    ensures Failures(Exec(c, w, run), key) == Failures(w, key) + CountFailures(c, w, run, key)
    decreases |run|
  {
    hide Step, Clears, MatchingResult, Inv;
    if run != [] {
      FailuresStep(c, limit, w, run[0], key);
      StepKeeps(c, limit, w, run[0]);
      FailuresAdd(c, limit, Step(c, w, run[0]), run[1..], key);
    }
  }

  // ---------- one probe at a time ----------

  predicate ProbeOut(w: World, id: PermitId, key: Key) {
    id in w.flights && w.flights[id].permit.key == key && w.flights[id].permit.probe
  }

  ghost predicate OneProbe(w: World) {
    forall i, j, k :: ProbeOut(w, i, k) && ProbeOut(w, j, k) ==> i == j
  }

  /** A circuit whose probe was overtaken by a reset cannot be half open again too soon. */
  ghost predicate ProbeGap(c: Settings, w: World) {
    forall i, k :: ProbeOut(w, i, k) && k in w.states && !Matches(w.states, w.flights[i].permit) && w.states[k].openUntil > 0
      ==> w.states[k].openUntil >= w.flights[i].issuedAt + c.cooldown
  }

  /** A probe is let through only when no earlier one can still be out. */
  lemma ProbeAlone(c: Settings, limit: nat, w: World, t: Timed, i: PermitId, key: Key)
    requires SettingsOk(c) && LimitOk(limit) && c.cooldown > limit && Inv(c, w) && ProbeGap(c, w) && Allowed(w, limit, t)
    requires t.op.AcquireOp? && t.op.key == key && Supersedes(c, w, t, key)
    ensures !ProbeOut(w, i, key)
  {
    if ProbeOut(w, i, key) {
      SweepSparesFlights(c, limit, w, t, i);
    }
  }

  lemma GapAt(c: Settings, w: World, i: PermitId, k: Key)
    requires ProbeGap(c, w) && ProbeOut(w, i, k) && k in w.states && !Matches(w.states, w.flights[i].permit) && w.states[k].openUntil > 0
    ensures w.states[k].openUntil >= w.flights[i].issuedAt + c.cooldown
  {
  }

  lemma GapStep(c: Settings, limit: nat, w: World, t: Timed, i: PermitId, k: Key)
    requires SettingsOk(c) && LimitOk(limit) && c.cooldown > limit && Inv(c, w) && ProbeGap(c, w) && Allowed(w, limit, t)
    requires ProbeOut(Step(c, w, t), i, k) && k in Step(c, w, t).states
    requires !Matches(Step(c, w, t).states, Step(c, w, t).flights[i].permit) && Step(c, w, t).states[k].openUntil > 0
    ensures Step(c, w, t).states[k].openUntil >= Step(c, w, t).flights[i].issuedAt + c.cooldown
  {
    if i in w.flights && Step(c, w, t).flights[i] == w.flights[i] {
      assert ProbeOut(w, i, k);
      FlightIsOk(c, w, i);
      SweepSparesFlights(c, limit, w, t, i);
      if Supersedes(c, w, t, k) && t.op.AcquireOp? {
        ProbeAlone(c, limit, w, t, i, k);
      } else {
        assert t.at <= w.flights[i].issuedAt + limit;
        hide Inv, ProbeGap, Allowed, LimitOk;
        if w.states[k].openUntil > 0 && !Matches(w.states, w.flights[i].permit) { GapAt(c, w, i, k); }
      }
    }
  }

  lemma OneProbeStep(c: Settings, limit: nat, w: World, t: Timed)
    requires SettingsOk(c) && LimitOk(limit) && c.cooldown > limit && Inv(c, w) && ProbeGap(c, w) && OneProbe(w) && Allowed(w, limit, t)
    ensures OneProbe(Step(c, w, t)) && ProbeGap(c, Step(c, w, t))
  {
    var after := Step(c, w, t);
    forall i, k | ProbeOut(after, i, k) && k in after.states && !Matches(after.states, after.flights[i].permit) && after.states[k].openUntil > 0
      ensures after.states[k].openUntil >= after.flights[i].issuedAt + c.cooldown
    {
      GapStep(c, limit, w, t, i, k);
    }
    forall i, j, k | ProbeOut(after, i, k) && ProbeOut(after, j, k) ensures i == j {
      if ProbeOut(w, i, k) && ProbeOut(w, j, k) {
      } else if ProbeOut(w, i, k) {
        ProbeAlone(c, limit, w, t, i, k);
      } else if ProbeOut(w, j, k) {
        ProbeAlone(c, limit, w, t, j, k);
      }
    }
  }

  lemma {:induction false} CooldownSeparatesProbes(c: Settings, limit: nat, w: World, run: seq<Timed>)
    requires SettingsOk(c) && LimitOk(limit) && c.cooldown > limit
    requires Inv(c, w) && ProbeGap(c, w) && OneProbe(w) && Legal(c, limit, w, run)
    ensures OneProbe(Exec(c, w, run))
    decreases |run|
  {
    hide Inv, Step, OneProbe, ProbeGap;
    if run != [] {
      StepKeeps(c, limit, w, run[0]);
      OneProbeStep(c, limit, w, run[0]);
      CooldownSeparatesProbes(c, limit, Step(c, w, run[0]), run[1..]);
    }
  }

  // ---------- with a reset, a short cooldown admits a second probe ----------

  ghost predicate AlwaysOneProbe(c: Settings, limit: nat) {
    forall run :: Legal(c, limit, EMPTY, run) ==> OneProbe(Exec(c, EMPTY, run))
  }

  lemma {:induction false} ExecConcat(c: Settings, limit: nat, w: World, a: seq<Timed>, b: seq<Timed>)
    requires Legal(c, limit, w, a) && Legal(c, limit, Exec(c, w, a), b)
    ensures Legal(c, limit, w, a + b) && Exec(c, w, a + b) == Exec(c, Exec(c, w, a), b)
    decreases |a|
  {
    hide Step, Allowed;
    if a == [] {
      assert a + b == b;
    } else {
      assert (a + b)[0] == a[0] && (a + b)[1..] == a[1..] + b;
      ExecConcat(c, limit, Step(c, w, a[0]), a[1..], b);
    }
  }

  function One(at: nat, op: Op): seq<Timed> {
    [Timed(op, at, at)]
  }

  lemma ExecOne(c: Settings, limit: nat, w: World, at: nat, op: Op)
    requires Allowed(w, limit, Timed(op, at, at))
    ensures Legal(c, limit, w, One(at, op)) && Exec(c, w, One(at, op)) == Step(c, w, Timed(op, at, at))
  {
    var t, rest := Timed(op, at, at), One(at, op)[1..];
    assert rest == [] && Legal(c, limit, Step(c, w, t), rest) && Exec(c, Step(c, w, t), rest) == Step(c, w, t);
  }

  /** `n` requests that fail at once, one after another. */
  function Burst(n: nat, id: PermitId, at: nat): seq<Timed> {
    if n == 0 then [] else One(at, AcquireOp(0, id)) + (One(at, CompleteOp(id, Failure)) + Burst(n - 1, id, at))
  }

  /** A closed circuit alone in its store. */
  function Closed(failures: nat, generation: nat, flights: map<PermitId, Flight>, at: nat): World {
    World(map[0 := Circuit(failures, 0, 0, generation, at)], flights, at)
  }

  function Opened(c: Settings, generation: nat, flights: map<PermitId, Flight>, at: nat): World {
    World(map[0 := Circuit(c.threshold, at + c.cooldown, 0, generation, at)], flights, at)
  }

  lemma OneFailure(c: Settings, limit: nat, failures: nat, generation: nat, flights: map<PermitId, Flight>, at: nat, id: PermitId)
    requires SettingsOk(c) && id !in flights && failures < c.threshold
    requires forall i :: i in flights ==> at <= flights[i].issuedAt + limit
    ensures Allowed(Closed(failures, generation, flights, at), limit, Timed(AcquireOp(0, id), at, at))
    ensures var mid := Step(c, Closed(failures, generation, flights, at), Timed(AcquireOp(0, id), at, at));
      && Allowed(mid, limit, Timed(CompleteOp(id, Failure), at, at))
      && Step(c, mid, Timed(CompleteOp(id, Failure), at, at)) ==
        if failures + 1 < c.threshold then Closed(failures + 1, generation, flights, at) else Opened(c, generation + 1, flights, at)
  {
    var w := Closed(failures, generation, flights, at);
    assert Swept(w.states, at) == w.states;
    var mid := Step(c, w, Timed(AcquireOp(0, id), at, at));
    assert mid.states == w.states && mid.flights == flights[id := Flight(Permit(0, generation, false), at)];
    assert Swept(mid.states, at) == mid.states;
    assert mid.flights - {id} == flights;
  }

  lemma {:induction false} BurstOpens(c: Settings, limit: nat, n: nat, generation: nat, flights: map<PermitId, Flight>, at: nat, id: PermitId)
    requires SettingsOk(c) && id !in flights && 0 < n <= c.threshold
    requires forall i :: i in flights ==> at <= flights[i].issuedAt + limit
    ensures Legal(c, limit, Closed(c.threshold - n, generation, flights, at), Burst(n, id, at))
    ensures Exec(c, Closed(c.threshold - n, generation, flights, at), Burst(n, id, at)) == Opened(c, generation + 1, flights, at)
  {
    hide Step, Allowed;
    var w, acquire, fail := Closed(c.threshold - n, generation, flights, at), AcquireOp(0, id), CompleteOp(id, Failure);
    OneFailure(c, limit, c.threshold - n, generation, flights, at, id);
    var mid := Step(c, w, Timed(acquire, at, at));
    ExecOne(c, limit, w, at, acquire);
    ExecOne(c, limit, mid, at, fail);
    if n > 1 { BurstOpens(c, limit, n - 1, generation, flights, at, id); }
    ExecConcat(c, limit, mid, One(at, fail), Burst(n - 1, id, at));
    ExecConcat(c, limit, w, One(at, acquire), One(at, fail) + Burst(n - 1, id, at));
  }

  lemma ProbeStep(c: Settings, limit: nat, generation: nat, flights: map<PermitId, Flight>, at: nat, id: PermitId)
    requires SettingsOk(c) && id !in flights
    requires forall i :: i in flights ==> at + c.cooldown <= flights[i].issuedAt + limit
    ensures var t := Timed(AcquireOp(0, id), at + c.cooldown, at + c.cooldown);
      && Allowed(Opened(c, generation, flights, at), limit, t)
      && Step(c, Opened(c, generation, flights, at), t).flights == flights[id := Flight(Permit(0, generation + 1, true), at + c.cooldown)]
      && Step(c, Opened(c, generation, flights, at), t).states.Keys == {0}
      && Step(c, Opened(c, generation, flights, at), t).states[0].generation == generation + 1
      && Step(c, Opened(c, generation, flights, at), t).states[0].updatedAt == at + c.cooldown
      && Step(c, Opened(c, generation, flights, at), t).clock == at + c.cooldown
  {
    var w, later := Opened(c, generation, flights, at), at + c.cooldown;
    assert Swept(w.states, later) == w.states;
    hide Swept;
    var s := w.states[0];
    assert Acquire(c, w.states, 0, later, later) ==
      (w.states[0 := s.(generation := s.generation + 1, probeUntil := later + PROBE_LEASE, updatedAt := later)],
       Ok(Permit(0, s.generation + 1, true)));
    hide Acquire;
  }

  lemma ResetStep(c: Settings, limit: nat, w: World, at: nat)
    requires w.clock <= at && forall i :: i in w.flights ==> at <= w.flights[i].issuedAt + limit
    requires w.states == map[] || (w.states.Keys == {0} && w.states[0].updatedAt == at)
    ensures Allowed(w, limit, Timed(ResetOp(0), at, at))
    ensures Step(c, w, Timed(ResetOp(0), at, at)) ==
      Closed(0, if w.states == map[] then 1 else w.states[0].generation + 1, w.flights, at)
  {
    var swept := Swept(w.states, at);
    assert swept == w.states;
    var s := Circuit(0, 0, 0, Current(swept, 0, at).generation + 1, at);
    assert swept[0 := s] == map[0 := s];
  }

  /** Reset, threshold failures, a probe. */
  function Round(c: Settings, id: PermitId, at: nat): seq<Timed> {
    One(at, ResetOp(0)) + (Burst(c.threshold, 0, at) + One(at + c.cooldown, AcquireOp(0, id)))
  }

  lemma RoundProbes(c: Settings, limit: nat, w: World, id: PermitId, at: nat) returns (generation: nat)
    requires SettingsOk(c) && w.clock <= at && 0 !in w.flights && id !in w.flights && id > 0
    requires forall i :: i in w.flights ==> at + c.cooldown <= w.flights[i].issuedAt + limit
    requires w.states == map[] || (w.states.Keys == {0} && w.states[0].updatedAt == at)
    ensures Legal(c, limit, w, Round(c, id, at))
    ensures var after := Exec(c, w, Round(c, id, at));
      && after.flights == w.flights[id := Flight(Permit(0, generation, true), at + c.cooldown)]
      && after.states.Keys == {0} && after.states[0].updatedAt == at + c.cooldown && after.clock == at + c.cooldown
  {
    hide Step, Allowed, Burst;
    ResetStep(c, limit, w, at);
    ExecOne(c, limit, w, at, ResetOp(0));
    var w1 := Exec(c, w, One(at, ResetOp(0)));
    generation := w1.states[0].generation + 2;
    BurstOpens(c, limit, c.threshold, w1.states[0].generation, w.flights, at, 0);
    var w2 := Opened(c, w1.states[0].generation + 1, w.flights, at);
    ProbeStep(c, limit, w1.states[0].generation + 1, w.flights, at, id);
    ExecOne(c, limit, w2, at + c.cooldown, AcquireOp(0, id));
    ExecConcat(c, limit, w1, Burst(c.threshold, 0, at), One(at + c.cooldown, AcquireOp(0, id)));
    ExecConcat(c, limit, w, One(at, ResetOp(0)), Burst(c.threshold, 0, at) + One(at + c.cooldown, AcquireOp(0, id)));
  }

  /** If a permit may be out for the cooldown, a reset while a probe is out, followed by as many
      failures as the threshold, lets a second probe through beside the first. */
  lemma ShortCooldownAdmitsTwo(c: Settings, limit: nat)
    requires SettingsOk(c) && LimitOk(limit) && c.cooldown <= limit
    ensures !AlwaysOneProbe(c, limit)
  {
    hide Step, Burst, Round, Legal, Exec, Allowed, Matches;
    var g := RoundProbes(c, limit, EMPTY, 1, 0);
    var w := Exec(c, EMPTY, Round(c, 1, 0));
    var h := RoundProbes(c, limit, w, 2, c.cooldown);
    ExecConcat(c, limit, EMPTY, Round(c, 1, 0), Round(c, 2, c.cooldown));
    var run := Round(c, 1, 0) + Round(c, 2, c.cooldown);
    assert Legal(c, limit, EMPTY, run);
    var after := Exec(c, EMPTY, run);
    assert ProbeOut(after, 1, 0) && ProbeOut(after, 2, 0);
  }

  /** At most one probe per provider is in flight in every run exactly when the cooldown is
      longer than a permit may be out. The defaults, 30 s and 15 s, satisfy it. */
  lemma OneProbeIffCooldownOutlastsRequests(c: Settings, limit: nat)
    requires SettingsOk(c) && LimitOk(limit)
    ensures AlwaysOneProbe(c, limit) <==> c.cooldown > limit
  {
    if c.cooldown > limit {
      forall run | Legal(c, limit, EMPTY, run) ensures OneProbe(Exec(c, EMPTY, run)) {
        CooldownSeparatesProbes(c, limit, EMPTY, run);
      }
    } else {
      ShortCooldownAdmitsTwo(c, limit);
    }
  }

  // ---------- without resets ----------

  ghost predicate ProbesMatch(w: World) {
    forall i, k :: ProbeOut(w, i, k) ==> Matches(w.states, w.flights[i].permit)
  }

  lemma ProbesMatchStep(c: Settings, limit: nat, w: World, t: Timed)
    requires SettingsOk(c) && LimitOk(limit) && Inv(c, w) && ProbesMatch(w) && Allowed(w, limit, t) && !t.op.ResetOp?
    ensures ProbesMatch(Step(c, w, t))
  {
    forall i, k | ProbeOut(Step(c, w, t), i, k) ensures Matches(Step(c, w, t).states, Step(c, w, t).flights[i].permit) {
      if i in w.flights && Step(c, w, t).flights[i] == w.flights[i] {
        assert ProbeOut(w, i, k) && MatchingProbe(w, i, k);
        SweepSparesFlights(c, limit, w, t, i);
        assert FlightOk(w.states, w.flights[i], w.clock);
        if t.op.CompleteOp? {
          assert FlightOk(w.states, w.flights[t.op.id], w.clock);
          ghost var rival := MatchingProbe(w, t.op.id, k);
        }
      }
    }
  }

  /** Whatever the cooldown, while nobody resets the circuit a probe that is out is of the
      current generation, so it is alone. */
  lemma {:induction false} OneProbeWithoutReset(c: Settings, limit: nat, w: World, run: seq<Timed>)
    requires SettingsOk(c) && LimitOk(limit) && Inv(c, w) && ProbesMatch(w) && Legal(c, limit, w, run)
    requires forall i :: 0 <= i < |run| ==> !run[i].op.ResetOp?
    ensures OneProbe(Exec(c, w, run))
    decreases |run|
  {
    if run == [] {
      forall i, j, k | ProbeOut(w, i, k) && ProbeOut(w, j, k) ensures i == j {
        assert MatchingProbe(w, i, k) && MatchingProbe(w, j, k);
      }
    } else {
      hide Inv, Step, ProbesMatch, OneProbe;
      StepKeeps(c, limit, w, run[0]);
      ProbesMatchStep(c, limit, w, run[0]);
      OneProbeWithoutReset(c, limit, Step(c, w, run[0]), run[1..]);
    }
  }

  // ---------- recovery ----------

  /** Nothing blocks a provider for good: once both the cooldown and the probe lease have
      passed since the last step, a permit is refused only for want of room. */
  lemma AdmittedAfterLease(c: Settings, limit: nat, run: seq<Timed>, key: Key, sweptAt: nat, now: nat)
    requires SettingsOk(c) && LimitOk(limit) && Legal(c, limit, EMPTY, run)
    requires Exec(c, EMPTY, run).clock + PROBE_LEASE <= sweptAt <= now
    ensures var r := Acquire(c, Exec(c, EMPTY, run).states, key, sweptAt, now).1; r.Ok? || r == Err(Busy)
  {
    Reachable(c, limit, EMPTY, run);
  }
}

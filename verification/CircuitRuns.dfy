/** Runs of the circuit breaker: permits in flight, evictions, resets and lost requests, in
    any order. A permit is completed, or lost with its process, within `limit` of its issue:
    the request's deadline and the time it takes to record the result. */
module CircuitRuns {
  import opened Wrappers
  import opened Finite
  import opened CircuitBreaker

  datatype Op =
    | AcquireOp(key: Key, id: PermitId)
    | CompleteOp(id: PermitId, verdict: Verdict)
    | LostOp(id: PermitId)
    | ResetOp(key: Key)

  /** An update reads the clock to evict, and again to work. */
  datatype Timed = Timed(op: Op, sweptAt: nat, at: nat)

  datatype Flight = Flight(permit: Permit, issuedAt: nat)

  datatype World = World(states: Circuits, flights: map<PermitId, Flight>, clock: nat)

  const EMPTY := World(map[], map[], 0)

  function Step(c: Settings, w: World, t: Timed): World {
    match t.op
    case AcquireOp(key, id) =>
      var (states, r) := Acquire(c, w.states, key, t.sweptAt, t.at);
      World(states, if r.Ok? then w.flights[id := Flight(r.value, t.at)] else w.flights, t.at)
    case CompleteOp(id, verdict) =>
      World(if id in w.flights then Complete(c, w.states, w.flights[id].permit, verdict, t.sweptAt, t.at).0 else w.states,
            w.flights - {id}, t.at)
    case LostOp(id) => World(w.states, w.flights - {id}, t.at)
    case ResetOp(key) => World(Reset(c, w.states, key, t.sweptAt, t.at).0, w.flights, t.at)
  }

  ghost predicate Allowed(w: World, limit: nat, t: Timed) {
    && w.clock <= t.sweptAt <= t.at
    && (t.op.AcquireOp? ==> t.op.id !in w.flights)
    && (t.op.CompleteOp? ==> t.op.id in w.flights)
    && forall id :: id in w.flights ==> t.at <= w.flights[id].issuedAt + limit
  }

  ghost predicate Legal(c: Settings, limit: nat, w: World, run: seq<Timed>)
    decreases |run|
  {
    run == [] || (Allowed(w, limit, run[0]) && Legal(c, limit, Step(c, w, run[0]), run[1..]))
  }

  ghost function Exec(c: Settings, w: World, run: seq<Timed>): World
    decreases |run|
  {
    if run == [] then w else Exec(c, Step(c, w, run[0]), run[1..])
  }

  // ---------- invariant ----------

  predicate CircuitOk(c: Settings, s: Circuit, clock: nat) {
    && (s.openUntil == 0 <==> s.failures < c.threshold)
    && (s.probeUntil > 0 ==> s.openUntil > 0)
    && s.openUntil <= clock + c.cooldown && s.probeUntil <= clock + PROBE_LEASE && s.updatedAt <= clock
  }

  predicate Matches(states: Circuits, p: Permit) {
    p.key in states && states[p.key].generation == p.generation
  }

  predicate FlightOk(states: Circuits, f: Flight, clock: nat) {
    && f.permit.key in states && f.issuedAt <= clock
    && f.permit.generation <= states[f.permit.key].generation
    && f.issuedAt <= states[f.permit.key].updatedAt
    && (Matches(states, f.permit) ==>
          && (f.permit.probe <==> states[f.permit.key].openUntil > 0)
          && (f.permit.probe ==> states[f.permit.key].openUntil <= f.issuedAt
                                 && states[f.permit.key].probeUntil == f.issuedAt + PROBE_LEASE))
  }

  predicate MatchingProbe(w: World, id: PermitId, key: Key)
    requires id in w.flights
  {
    w.flights[id].permit.key == key && w.flights[id].permit.probe && Matches(w.states, w.flights[id].permit)
  }

  ghost predicate Inv(c: Settings, w: World) {
    && |w.states| <= MAXIMUM_ENTRIES
    && (forall k :: k in w.states ==> CircuitOk(c, w.states[k], w.clock))
    && (forall id :: id in w.flights ==> FlightOk(w.states, w.flights[id], w.clock))
    && forall i, j, k :: i in w.flights && j in w.flights && MatchingProbe(w, i, k) && MatchingProbe(w, j, k) ==> i == j
  }

  /** Results are recorded within the lease of a probe, which leaves them ten seconds after
      the longest deadline. */
  predicate LimitOk(limit: nat) {
    1 <= limit < PROBE_LEASE
  }

  /** No eviction takes the circuit of an outstanding permit. */
  lemma SweepSparesFlights(c: Settings, limit: nat, w: World, t: Timed, id: PermitId)
    requires LimitOk(limit) && Inv(c, w) && Allowed(w, limit, t) && id in w.flights
    ensures w.flights[id].permit.key in Swept(w.states, t.sweptAt)
  {
    assert FlightOk(w.states, w.flights[id], w.clock);
  }

  /** The world an update works on, after evicting. */
  function Cleared(w: World, t: Timed): World {
    World(Swept(w.states, t.sweptAt), w.flights, t.at)
  }

  lemma ClearedKeeps(c: Settings, limit: nat, w: World, t: Timed)
    requires LimitOk(limit) && Inv(c, w) && Allowed(w, limit, t)
    ensures Inv(c, Cleared(w, t))
  {
    SubsetSize(Swept(w.states, t.sweptAt).Keys, w.states.Keys);
    forall id | id in w.flights ensures FlightOk(Cleared(w, t).states, w.flights[id], t.at) {
      SweepSparesFlights(c, limit, w, t, id);
    }
    forall i, j, k | i in w.flights && j in w.flights && MatchingProbe(Cleared(w, t), i, k) && MatchingProbe(Cleared(w, t), j, k)
      ensures i == j
    {
      assert MatchingProbe(w, i, k) && MatchingProbe(w, j, k);
    }
  }

  lemma LaterKeeps(c: Settings, w: World, at: nat, flights: map<PermitId, Flight>)
    requires Inv(c, w) && w.clock <= at
    requires forall id :: id in flights ==> id in w.flights && flights[id] == w.flights[id]
    ensures Inv(c, World(w.states, flights, at))
  {
    var after := World(w.states, flights, at);
    forall i, j, k | i in flights && j in flights && MatchingProbe(after, i, k) && MatchingProbe(after, j, k) ensures i == j {
      assert MatchingProbe(w, i, k) && MatchingProbe(w, j, k);
    }
  }

  predicate CurrentProbe(f: Flight, key: Key, s: Circuit) {
    f.permit.key == key && f.permit.probe && f.permit.generation == s.generation
  }

  /** A row may be replaced if every remaining permit that still matches it agrees with it. */
  lemma PutKeeps(c: Settings, w: World, key: Key, s: Circuit, flights: map<PermitId, Flight>)
    requires Inv(c, w) && CircuitOk(c, s, w.clock) && s.updatedAt == w.clock
    requires key in w.states || |w.states| < MAXIMUM_ENTRIES
    requires forall id :: id in flights && flights[id].permit.key != key ==> id in w.flights && flights[id] == w.flights[id]
    requires forall id :: id in flights && flights[id].permit.key == key ==> FlightOk(w.states[key := s], flights[id], w.clock)
    requires forall i, j :: i in flights && j in flights && CurrentProbe(flights[i], key, s) && CurrentProbe(flights[j], key, s) ==> i == j
    ensures Inv(c, World(w.states[key := s], flights, w.clock))
  {
    var after := World(w.states[key := s], flights, w.clock);
    forall id | id in flights ensures FlightOk(after.states, flights[id], w.clock) {
      if flights[id].permit.key != key { assert FlightOk(w.states, w.flights[id], w.clock); }
    }
    forall i, j, k | i in flights && j in flights && MatchingProbe(after, i, k) && MatchingProbe(after, j, k) ensures i == j {
      if k != key { assert MatchingProbe(w, i, k) && MatchingProbe(w, j, k); }
    }
  }

  lemma FlightIsOk(c: Settings, w: World, id: PermitId)
    requires Inv(c, w) && id in w.flights
    ensures FlightOk(w.states, w.flights[id], w.clock)
  {
  }

  lemma CircuitIsOk(c: Settings, w: World, key: Key)
    requires Inv(c, w)
    ensures key in w.states ==> CircuitOk(c, w.states[key], w.clock)
  {
  }

  lemma OneMatchingProbe(c: Settings, w: World, i: PermitId, j: PermitId, key: Key)
    requires Inv(c, w) && i in w.flights && j in w.flights && MatchingProbe(w, i, key) && MatchingProbe(w, j, key)
    ensures i == j
  {
  }

  lemma AcquireKeeps(c: Settings, limit: nat, w: World, t: Timed)
    requires SettingsOk(c) && LimitOk(limit) && Inv(c, w) && Allowed(w, limit, t) && t.op.AcquireOp?
    ensures Inv(c, Step(c, w, t))
  {
    hide Inv, Swept;
    ClearedKeeps(c, limit, w, t);
    LaterKeeps(c, w, t.at, w.flights);
    CircuitIsOk(c, Cleared(w, t), t.op.key);
    var (states, r) := Acquire(c, w.states, t.op.key, t.sweptAt, t.at);
    if r.Ok? {
      var w1, key, flights := Cleared(w, t), t.op.key, Step(c, w, t).flights;
      forall id | id in w.flights && w.flights[id].permit.key == key
        ensures FlightOk(states, flights[id], t.at) && (r.value.probe ==> !Matches(states, flights[id].permit))
      {
        FlightIsOk(c, w1, id);
      }
      if !r.value.probe {
        forall i | i in flights && flights[i].permit.key == key && flights[i].permit.probe
          ensures flights[i].permit.generation != states[key].generation
        {
          if i != t.op.id { FlightIsOk(c, w1, i); }
        }
      }
      PutKeeps(c, w1, key, states[key], flights);
    }
  }

  lemma CompleteKeeps(c: Settings, limit: nat, w: World, t: Timed)
    requires SettingsOk(c) && LimitOk(limit) && Inv(c, w) && Allowed(w, limit, t) && t.op.CompleteOp?
    ensures Inv(c, Step(c, w, t))
  {
    hide Inv, Swept;
    var id, p, w1 := t.op.id, w.flights[t.op.id].permit, Cleared(w, t);
    ClearedKeeps(c, limit, w, t);
    SweepSparesFlights(c, limit, w, t, id);
    LaterKeeps(c, w1, t.at, w.flights - {id});
    if Matches(w1.states, p) {
      var s := Completed(c, w1.states[p.key], p.probe, t.op.verdict, t.at);
      FlightIsOk(c, w1, id);
      CircuitIsOk(c, w1, p.key);
      forall i | i in w.flights - {id} && w.flights[i].permit.key == p.key
        ensures FlightOk(w1.states[p.key := s], w.flights[i], t.at)
        ensures w.flights[i].permit.probe ==> w.flights[i].permit.generation != s.generation
      {
        if MatchingProbe(w1, i, p.key) && MatchingProbe(w1, id, p.key) { OneMatchingProbe(c, w1, i, id, p.key); }
        FlightIsOk(c, w1, i);
      }
      PutKeeps(c, w1, p.key, s, w.flights - {id});
    }
  }

  lemma ResetKeeps(c: Settings, limit: nat, w: World, t: Timed)
    requires SettingsOk(c) && LimitOk(limit) && Inv(c, w) && Allowed(w, limit, t) && t.op.ResetOp?
    ensures Inv(c, Step(c, w, t))
  {
    hide Inv, Swept;
    var w1, key := Cleared(w, t), t.op.key;
    ClearedKeeps(c, limit, w, t);
    LaterKeeps(c, w, t.at, w.flights);
    if !Full(w1.states, key) {
      var s := Circuit(0, 0, 0, Current(w1.states, key, t.at).generation + 1, t.at);
      forall i | i in w.flights && w.flights[i].permit.key == key
        ensures FlightOk(w1.states[key := s], w.flights[i], t.at) && w.flights[i].permit.generation != s.generation
      {
        FlightIsOk(c, w1, i);
      }
      PutKeeps(c, w1, key, s, w.flights);
    }
  }

  lemma StepKeeps(c: Settings, limit: nat, w: World, t: Timed)
    requires SettingsOk(c) && LimitOk(limit) && Inv(c, w) && Allowed(w, limit, t)
    ensures Inv(c, Step(c, w, t))
  {
    hide Inv;
    match t.op
    case AcquireOp(_, _) => AcquireKeeps(c, limit, w, t);
    case CompleteOp(_, _) => CompleteKeeps(c, limit, w, t);
    case LostOp(id) => LaterKeeps(c, w, t.at, w.flights - {id});
    case ResetOp(_) => ResetKeeps(c, limit, w, t);
  }

  /** Every reachable store: closed exactly while the failures are below the threshold; an
      outstanding permit's circuit is still there, and of its generation or a later one; a
      permit of the current generation is a probe exactly when the circuit is open, and at
      most one such probe is out. */
  lemma {:induction false} Reachable(c: Settings, limit: nat, w: World, run: seq<Timed>)
    requires SettingsOk(c) && LimitOk(limit) && Inv(c, w) && Legal(c, limit, w, run)
    ensures Inv(c, Exec(c, w, run))
    decreases |run|
  {
    hide Inv, Step;
    if run != [] {
      StepKeeps(c, limit, w, run[0]);
      Reachable(c, limit, Step(c, w, run[0]), run[1..]);
    }
  }
}

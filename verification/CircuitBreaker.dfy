/** The circuit breaker that every outbound provider call asks for a permit, over a store of
    circuits shared by all server instances. Times are milliseconds. */
module CircuitBreaker {
  import opened Wrappers

  type Key = nat
  type PermitId = nat

  const ENTRY_TTL := 3_600_000
  const PROBE_LEASE := 310_000
  const REQUEST_LIMIT := 300_000
  const MAXIMUM_ENTRIES := 128

  /** `durable` tells the database store, whose update is rolled back when it throws, from the
      store in memory, which keeps the rows it has already evicted deleted. */
  datatype Settings = Settings(threshold: nat, cooldown: nat, durable: bool)

  predicate SettingsOk(c: Settings) {
    1 <= c.threshold <= 100 && 1 <= c.cooldown <= 300_000
  }

  datatype Circuit = Circuit(failures: nat, openUntil: nat, probeUntil: nat, generation: nat, updatedAt: nat)

  type Circuits = map<Key, Circuit>

  datatype Permit = Permit(key: Key, generation: nat, probe: bool)

  datatype Refusal = Busy | Blocked(retryAfter: nat)

  datatype Verdict = Success | Failure | Cancelled

  // ---------- the store ----------

  predicate Expired(s: Circuit, now: nat) {
    s.updatedAt + ENTRY_TTL < now && s.openUntil < now && s.probeUntil < now
  }

  function Swept(states: Circuits, now: nat): Circuits {
    map k | k in states && !Expired(states[k], now) :: states[k]
  }

  predicate Full(states: Circuits, key: Key) {
    key !in states && |states| >= MAXIMUM_ENTRIES
  }

  function Thrown(c: Settings, states: Circuits, swept: Circuits): Circuits {
    if c.durable then states else swept
  }

  function Current(states: Circuits, key: Key, now: nat): Circuit {
    if key in states then states[key] else Circuit(0, 0, 0, 0, now)
  }

  // ---------- the breaker ----------

  function Acquire(c: Settings, states: Circuits, key: Key, sweptAt: nat, now: nat): (Circuits, Result<Permit, Refusal>) {
    var swept := Swept(states, sweptAt);
    var s := Current(swept, key, now);
    if Full(swept, key) then (Thrown(c, states, swept), Err(Busy))
    else if s.openUntil > now || s.probeUntil > now then
      (Thrown(c, states, swept), Err(Blocked((if s.openUntil > s.probeUntil then s.openUntil else s.probeUntil) - now)))
    else if s.openUntil > 0 then
      (swept[key := s.(generation := s.generation + 1, probeUntil := now + PROBE_LEASE, updatedAt := now)],
       Ok(Permit(key, s.generation + 1, true)))
    else (swept[key := s.(updatedAt := now)], Ok(Permit(key, s.generation, false)))
  }

  function Completed(c: Settings, s: Circuit, probe: bool, verdict: Verdict, now: nat): Circuit {
    match verdict
    case Cancelled => s.(probeUntil := if probe then 0 else s.probeUntil, updatedAt := now)
    case Success =>
      s.(failures := 0, openUntil := 0, probeUntil := 0, generation := s.generation + if probe then 1 else 0, updatedAt := now)
    case Failure =>
      var counted := s.(failures := s.failures + 1, updatedAt := now);
      if probe || counted.failures >= c.threshold then
        counted.(openUntil := now + c.cooldown, probeUntil := 0, generation := s.generation + 1)
      else counted
  }

  function Complete(c: Settings, states: Circuits, p: Permit, verdict: Verdict, sweptAt: nat, now: nat): (Circuits, bool) {
    var swept := Swept(states, sweptAt);
    if Full(swept, p.key) then (Thrown(c, states, swept), false)
    else if p.key !in swept || swept[p.key].generation != p.generation then (swept, true)
    else (swept[p.key := Completed(c, swept[p.key], p.probe, verdict, now)], true)
  }

  function Reset(c: Settings, states: Circuits, key: Key, sweptAt: nat, now: nat): (Circuits, bool) {
    var swept := Swept(states, sweptAt);
    if Full(swept, key) then (Thrown(c, states, swept), false)
    else (swept[key := Circuit(0, 0, 0, Current(swept, key, now).generation + 1, now)], true)
  }

  /** The breaker in front of its store. */
  class Breaker {
    const settings: Settings
    var states: Circuits

    constructor (settings: Settings)
      ensures this.settings == settings && states == map[]
    {
      this.settings := settings;
      states := map[];
    }

    method Sweep(now: nat)
      modifies this`states
      ensures states == Swept(old(states), now)
    {
      var names := states.Keys;
      while names != {}
        invariant names <= old(states).Keys
        invariant states == map k | k in old(states) && (k in names || !Expired(old(states)[k], now)) :: old(states)[k]
        decreases names
      {
        var name :| name in names;
        var state := states[name];
        if state.updatedAt + ENTRY_TTL < now && state.openUntil < now && state.probeUntil < now {
          states := states - {name};
        }
        names := names - {name};
      }
    }

    /** The part of an update before its work: evict, then look for room. */
    method Enter(key: Key, now: nat) returns (ok: bool)
      modifies this`states
      ensures ok == !Full(Swept(old(states), now), key)
      ensures states == if ok then Swept(old(states), now) else Thrown(settings, old(states), Swept(old(states), now))
    {
      var before := states;
      Sweep(now);
      ok := key in states || |states| < MAXIMUM_ENTRIES;
      if !ok && settings.durable { states := before; }
    }

    method AcquirePermit(key: Key, sweptAt: nat, now: nat) returns (r: Result<Permit, Refusal>)
      modifies this`states
      ensures (states, r) == Acquire(settings, old(states), key, sweptAt, now)
    {
      var before := states;
      var room := Enter(key, sweptAt);
      if !room { return Err(Busy); }
      var state := if key in states then states[key] else Circuit(0, 0, 0, 0, now);
      if state.openUntil > now || state.probeUntil > now {
        var retry := if state.openUntil > state.probeUntil then state.openUntil else state.probeUntil;
        if settings.durable { states := before; }
        return Err(Blocked(retry - now));
      }
      var probe := state.openUntil > 0;
      if probe {
        state := state.(generation := state.generation + 1);
        state := state.(probeUntil := now + PROBE_LEASE);
      }
      state := state.(updatedAt := now);
      states := states[key := state];
      r := Ok(Permit(key, state.generation, probe));
    }

    method CompletePermit(permit: Permit, verdict: Verdict, sweptAt: nat, now: nat) returns (ok: bool)
      modifies this`states
      ensures (states, ok) == Complete(settings, old(states), permit, verdict, sweptAt, now)
    {
      ok := Enter(permit.key, sweptAt);
      if !ok || permit.key !in states { return; }
      var state := states[permit.key];
      if state.generation != permit.generation { return; }
      state := state.(updatedAt := now);
      if verdict == Cancelled {
        if permit.probe { state := state.(probeUntil := 0); }
      } else if verdict == Success {
        state := state.(failures := 0, openUntil := 0, probeUntil := 0);
        if permit.probe { state := state.(generation := state.generation + 1); }
      } else {
        state := state.(failures := state.failures + 1);
        if permit.probe || state.failures >= settings.threshold {
          state := state.(openUntil := now + settings.cooldown, probeUntil := 0, generation := state.generation + 1);
        }
      }
      states := states[permit.key := state];
    }

    method ResetCircuit(key: Key, sweptAt: nat, now: nat) returns (ok: bool)
      modifies this`states
      ensures (states, ok) == Reset(settings, old(states), key, sweptAt, now)
    {
      ok := Enter(key, sweptAt);
      if !ok { return; }
      var generation := if key in states then states[key].generation else 0;
      states := states[key := Circuit(0, 0, 0, generation + 1, now)];
    }
  }
}

/** What a caller sees of a circuit after a result or a reset has been recorded. */
module CircuitOutcomes {
  import opened CircuitBreaker
  import opened CircuitRuns
  import opened Wrappers
  import Finite

  // ---------- what a result does to its circuit ----------

  /** A result of the current generation, told on the numbers of its circuit. */
  lemma ResultOutcome(c: Settings, limit: nat, w: World, t: Timed)
    requires LimitOk(limit) && Inv(c, w) && Allowed(w, limit, t) && t.op.CompleteOp?
    requires Matches(w.states, w.flights[t.op.id].permit)
    ensures var (p, after) := (w.flights[t.op.id].permit, Step(c, w, t).states);
      && p.key in after && after[p.key].updatedAt == t.at
      && var (s, r) := (w.states[p.key], after[p.key]);
         match t.op.verdict
         case Success => r.failures == 0 && r.openUntil == 0 && r.probeUntil == 0 && r.generation == s.generation + (if p.probe then 1 else 0)
         case Cancelled =>
           && r.failures == s.failures && r.openUntil == s.openUntil && r.generation == s.generation
           && r.probeUntil == if p.probe then 0 else s.probeUntil
         case Failure =>
           && r.failures == s.failures + 1
           && if p.probe || s.failures + 1 >= c.threshold
              then r.openUntil == t.at + c.cooldown && r.probeUntil == 0 && r.generation == s.generation + 1
              else r.openUntil == s.openUntil && r.probeUntil == s.probeUntil && r.generation == s.generation
  {
    SweepSparesFlights(c, limit, w, t, t.op.id);
  }

  /** No step on another key touches a circuit, except that eviction may take it. */
  lemma OtherKeysStay(c: Settings, w: World, t: Timed, key: Key)
    requires t.op.LostOp? || (t.op.AcquireOp? && t.op.key != key) || (t.op.ResetOp? && t.op.key != key)
      || (t.op.CompleteOp? && t.op.id in w.flights && w.flights[t.op.id].permit.key != key)
    ensures key in Step(c, w, t).states ==> key in w.states && Step(c, w, t).states[key] == w.states[key]
    ensures key in w.states && !Expired(w.states[key], t.sweptAt) ==> key in Step(c, w, t).states
  {
  }

  // ---------- what the next caller is told ----------

  /** The circuit that an acquisition finds lets it through, or tells it how long to wait. */
  lemma AcquireOutcome(c: Settings, states: Circuits, key: Key, sweptAt: nat, now: nat)
    requires key in states && !Expired(states[key], sweptAt)
    ensures var (s, r) := (states[key], Acquire(c, states, key, sweptAt, now).1);
      if s.openUntil > now || s.probeUntil > now then
        r.Err? && r.error.Blocked? && now + r.error.retryAfter >= s.openUntil && now + r.error.retryAfter >= s.probeUntil
        && (now + r.error.retryAfter == s.openUntil || now + r.error.retryAfter == s.probeUntil)
      else r == Ok(Permit(key, if s.openUntil > 0 then s.generation + 1 else s.generation, s.openUntil > 0))
  {
  }

  /** Exactly the entries that have been idle for an hour go, unless a cooldown or the lease
      of a probe lasts. */
  lemma SweptExactly(states: Circuits, now: nat, key: Key)
    ensures key in Swept(states, now) <==>
      (key in states && (now <= states[key].updatedAt + 3_600_000 || now <= states[key].openUntil || now <= states[key].probeUntil))
    ensures key in Swept(states, now) ==> Swept(states, now)[key] == states[key]
  {
  }

  /** A refused acquisition leaves every circuit as it was; the store in memory has evicted. */
  lemma RefusalChangesNothing(c: Settings, states: Circuits, key: Key, sweptAt: nat, now: nat)
    requires Acquire(c, states, key, sweptAt, now).1.Err?
    ensures Acquire(c, states, key, sweptAt, now).0 == if c.durable then states else Swept(states, sweptAt)
  {
  }

  /** Where there is no room for a result, it is refused, and no circuit gets it. */
  lemma NoRoomForResult(c: Settings, states: Circuits, p: Permit, verdict: Verdict, sweptAt: nat, now: nat)
    ensures var (after, ok) := Complete(c, states, p, verdict, sweptAt, now);
      && (ok <==> p.key in Swept(states, sweptAt) || |Swept(states, sweptAt)| < 128)
      && (!ok ==> after == if c.durable then states else Swept(states, sweptAt))
  {
  }

  /** An unknown key is let through while the store has room. */
  lemma UnknownOutcome(c: Settings, states: Circuits, key: Key, sweptAt: nat, now: nat)
    requires key !in Swept(states, sweptAt)
    ensures Acquire(c, states, key, sweptAt, now).1 ==
      if |Swept(states, sweptAt)| >= 128 then Err(Busy) else Ok(Permit(key, 0, false))
  {
  }

  /** After a probe: its success closes the circuit, its failure keeps it shut for exactly the
      cooldown, and its cancellation lets the next caller probe at once. */
  lemma AfterProbe(c: Settings, limit: nat, w: World, t: Timed, sweptAt: nat, now: nat)
    requires SettingsOk(c) && LimitOk(limit) && Inv(c, w) && Allowed(w, limit, t) && t.op.CompleteOp?
    requires Matches(w.states, w.flights[t.op.id].permit) && w.flights[t.op.id].permit.probe
    requires t.at <= sweptAt <= now && sweptAt <= t.at + ENTRY_TTL
    ensures var (p, next) := (w.flights[t.op.id].permit, Acquire(c, Step(c, w, t).states, w.flights[t.op.id].permit.key, sweptAt, now).1);
      match t.op.verdict
      case Success => next == Ok(Permit(p.key, p.generation + 1, false))
      case Cancelled => next == Ok(Permit(p.key, p.generation + 1, true))
      case Failure => next == if now < t.at + c.cooldown then Err(Blocked(t.at + c.cooldown - now)) else Ok(Permit(p.key, p.generation + 2, true))
  {
    ResultOutcome(c, limit, w, t);
    FlightIsOk(c, w, t.op.id);
    hide Inv, Step, Acquire;
    AcquireOutcome(c, Step(c, w, t).states, w.flights[t.op.id].permit.key, sweptAt, now);
  }

  /** The failure that reaches the threshold shuts the circuit for exactly the cooldown. */
  lemma AfterLastFailure(c: Settings, limit: nat, w: World, t: Timed, sweptAt: nat, now: nat)
    requires SettingsOk(c) && LimitOk(limit) && Inv(c, w) && Allowed(w, limit, t) && t.op.CompleteOp? && t.op.verdict == Failure
    requires Matches(w.states, w.flights[t.op.id].permit)
    requires w.states[w.flights[t.op.id].permit.key].failures + 1 >= c.threshold
    requires t.at <= sweptAt <= now && sweptAt <= t.at + ENTRY_TTL
    ensures var (key, g) := (w.flights[t.op.id].permit.key, w.flights[t.op.id].permit.generation);
      Acquire(c, Step(c, w, t).states, key, sweptAt, now).1 ==
        if now < t.at + c.cooldown then Err(Blocked(t.at + c.cooldown - now)) else Ok(Permit(key, g + 2, true))
  {
    ResultOutcome(c, limit, w, t);
    hide Inv, Step, Acquire;
    AcquireOutcome(c, Step(c, w, t).states, w.flights[t.op.id].permit.key, sweptAt, now);
  }

  /** A reset lets the next caller through at once, in a new generation. */
  lemma AfterReset(c: Settings, w: World, t: Timed, sweptAt: nat, now: nat)
    requires t.op.ResetOp? && |w.states| <= 128 && (t.op.key in w.states || |w.states| < 128)
    requires t.at <= sweptAt <= now && sweptAt <= t.at + ENTRY_TTL
    ensures var after := Step(c, w, t).states;
      && t.op.key in after && after[t.op.key].failures == 0
      && (t.op.key in w.states && !Expired(w.states[t.op.key], t.sweptAt) ==> after[t.op.key].generation == w.states[t.op.key].generation + 1)
      && Acquire(c, after, t.op.key, sweptAt, now).1 == Ok(Permit(t.op.key, after[t.op.key].generation, false))
  {
    SweptFits(w.states, t.op.key, t.sweptAt);
    hide Swept;
    var after := Step(c, w, t).states;
    AcquireOutcome(c, after, t.op.key, sweptAt, now);
  }

  lemma SweptFits(states: Circuits, key: Key, now: nat)
    requires key in states || |states| < MAXIMUM_ENTRIES
    requires |states| <= MAXIMUM_ENTRIES
    ensures !Full(Swept(states, now), key)
    ensures key in states && !Expired(states[key], now) ==> key in Swept(states, now) && Swept(states, now)[key] == states[key]
  {
    Finite.SubsetSize(Swept(states, now).Keys, if key in Swept(states, now) then states.Keys else states.Keys - {key});
    assert |Swept(states, now)| == |Swept(states, now).Keys| && |states| == |states.Keys|;
  }
}

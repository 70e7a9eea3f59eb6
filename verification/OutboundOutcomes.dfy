/** What a request tells the shared circuits, judged by what the provider and the caller did. */
module OutboundOutcomes {
  import opened CircuitBreaker
  import opened CircuitOutcomes
  import opened CircuitRuns
  import opened Outbound
  import opened Wrappers

  // ---------- the last attempt ----------

  /** A complete answer that does not ask to be tried again. */
  predicate Answered(t: Turn) {
    !t.abort.InCall? && t.answer.Status? && t.answer.code !in {408, 429, 500, 502, 503, 504}
  }

  /** The wait that the answer asks for, if it is one that may be waited for. */
  predicate Waits(t: Turn, o: Options, last: bool) {
    && !last
    && match t.answer
       case Unreachable => true
       case Status(code, after) =>
         var server := if after.Some? then after.value else 0;
         && code in {408, 429, 500, 502, 503, 504}
         && t.jitter <= o.retryMaximum && server <= o.retryMaximum
         && t.elapsed + t.jitter < o.timeout && t.elapsed + server < o.timeout
       case _ => false
  }

  /** The caller gave up during the call, or during the wait behind it. */
  predicate GivenUp(t: Turn, o: Options, last: bool) {
    t.abort == InCall(Caller) || (t.abort == InWait(Caller) && Waits(t, o, last))
  }

  /** A complete answer is a success, a caller who gives up says nothing about the provider,
      and everything else counts against it: no connection, a redirect, an unreadable body, a
      transient status, the deadline. */
  lemma VerdictMeans(turns: nat -> Turn, o: Options, calls: nat, e: Ending)
    requires OptionsOk(o) && Outbound.Played(turns, o, calls, e)
    ensures var t := turns(calls - 1);
      VerdictOf(e) == if GivenUp(t, o, calls == o.attempts) then Cancelled else if Answered(t) then Success else Failure
  {
    var t := turns(calls - 1);
    assert t.answer.Status? ==> (TooLong(t, o) <==>
      !(t.jitter <= o.retryMaximum && (t.answer.retryAfter.Some? ==> t.answer.retryAfter.value <= o.retryMaximum)
        && t.elapsed + t.jitter < o.timeout && (t.answer.retryAfter.Some? ==> t.elapsed + t.answer.retryAfter.value < o.timeout)));
  }

  /** What one attempt after another looks like to the provider. */
  lemma AttemptsMean(turns: nat -> Turn, o: Options, calls: nat, e: Ending)
    requires OptionsOk(o) && Outbound.Played(turns, o, calls, e)
    ensures 1 <= calls <= o.attempts
    ensures forall k :: 0 <= k < calls - 1 ==> turns(k).abort == Never && Waits(turns(k), o, false)
    ensures turns(calls - 1).abort != Never || !Waits(turns(calls - 1), o, calls == o.attempts)
    ensures match e
      case Returned(code) => turns(calls - 1).answer.Status? && turns(calls - 1).answer.code == code
      case Threw => !turns(calls - 1).answer.Status?
      case GaveUp(cause) => turns(calls - 1).abort == InCall(cause) || turns(calls - 1).abort == InWait(cause)
  {
    forall k | 0 <= k < calls ensures Retries(turns(k), o, k == o.attempts - 1) <==> turns(k).abort == Never && Waits(turns(k), o, k == o.attempts - 1) {
      RetriesMean(turns(k), o, k == o.attempts - 1);
    }
    forall k | 0 <= k < calls - 1 ensures turns(k).abort == Never && Waits(turns(k), o, false) {
      assert Retries(turns(k), o, false);
      RetriesMean(turns(k), o, false);
    }
  }

  lemma RetriesMean(t: Turn, o: Options, last: bool)
    ensures Retries(t, o, last) <==> t.abort == Never && Waits(t, o, last)
  {
    assert Transient(408);
  }

  // ---------- the circuit afterwards ----------

  /** A request of the current generation counts against its provider, clears it, or leaves
      it alone, by what happened in its last attempt. */
  lemma RequestCounts(c: Settings, limit: nat, w: World, t: Timed, turns: nat -> Turn, o: Options, calls: nat, e: Ending)
    requires OptionsOk(o) && Outbound.Played(turns, o, calls, e)
    requires LimitOk(limit) && Inv(c, w) && Allowed(w, limit, t) && t.op.CompleteOp? && t.op.verdict == VerdictOf(e)
    requires Matches(w.states, w.flights[t.op.id].permit)
    ensures var (key, after, end) := (w.flights[t.op.id].permit.key, Step(c, w, t).states, turns(calls - 1));
      && key in after
      && var (s, r) := (w.states[key], after[key]);
         if GivenUp(end, o, calls == o.attempts) then r.failures == s.failures && r.openUntil == s.openUntil
         else if Answered(end) then r.failures == 0 && r.openUntil == 0
         else r.failures == s.failures + 1
  {
    VerdictMeans(turns, o, calls, e);
    ResultOutcome(c, limit, w, t);
    hide Inv, Step, Allowed, Answered, GivenUp;
  }

  // ---------- a dead provider ----------

  /** One request as it went: its attempts, its ending, and when it took its permit and reported. */
  datatype Tried = Tried(turns: nat -> Turn, calls: nat, ending: Ending, at: Instants)

  /** It got no proper answer, and its caller did not give up. */
  ghost predicate Failed(x: Tried, o: Options) {
    && Outbound.Played(x.turns, o, x.calls, x.ending)
    && !GivenUp(x.turns(x.calls - 1), o, x.calls == o.attempts) && !Answered(x.turns(x.calls - 1))
  }

  /** The circuits after requests made one after another. */
  ghost function InARow(c: Settings, w: World, key: Key, id: PermitId, xs: seq<Tried>): World
    decreases |xs|
  {
    if xs == [] then w
    else
      var before := InARow(c, w, key, id, xs[..|xs| - 1]);
      var x := xs[|xs| - 1];
      Step(c, Step(c, before, Taking(key, id, x.at)), Settling(id, x.ending, x.at))
  }

  predicate InOrder(at: Instants, from: nat) {
    from <= at.sweptAt <= at.now <= at.sweptLater <= at.later && at.now + PROBE_LEASE > at.later && at.sweptAt <= from + ENTRY_TTL
  }

  function LastReport(xs: seq<Tried>): nat
    requires xs != []
  {
    xs[|xs| - 1].at.later
  }

  /** One after another, with no pause as long as the life of an entry. */
  predicate Successive(xs: seq<Tried>) {
    && (forall i :: 0 <= i < |xs| ==> InOrder(xs[i].at, xs[i].at.sweptAt))
    && forall i :: 0 < i < |xs| ==> InOrder(xs[i].at, xs[i - 1].at.later)
  }

  predicate Fresh(w: World, key: Key) {
    && |w.states| <= 128 && (key in w.states || |w.states| < 128)
    && (key in w.states ==> w.states[key].failures == 0 && w.states[key].openUntil == 0 && w.states[key].probeUntil == 0)
  }

  lemma FirstTaken(c: Settings, w: World, key: Key, id: PermitId, at: Instants)
    requires Fresh(w, key)
    ensures var v := Step(c, w, Taking(key, id, at));
      && id in v.flights && key in v.states && v.flights[id] == Flight(Permit(key, v.states[key].generation, false), at.now)
      && v.states[key].failures == 0 && v.states[key].openUntil == 0 && v.states[key].probeUntil == 0 && v.states[key].updatedAt == at.now
  {
    SweptFits(w.states, key, at.sweptAt);
  }

  lemma NextTaken(c: Settings, w: World, key: Key, id: PermitId, at: Instants)
    requires key in w.states && w.states[key].openUntil == 0 && w.states[key].probeUntil == 0 && at.sweptAt <= w.states[key].updatedAt + ENTRY_TTL
    ensures var v := Step(c, w, Taking(key, id, at));
      && id in v.flights && key in v.states && v.flights[id] == Flight(Permit(key, v.states[key].generation, false), at.now)
      && v.states[key] == w.states[key].(updatedAt := at.now)
  {
  }

  lemma Reported(c: Settings, w: World, key: Key, id: PermitId, e: Ending, at: Instants)
    requires id in w.flights && key in w.states && w.flights[id].permit == Permit(key, w.states[key].generation, false)
    requires w.states[key].updatedAt == at.now <= at.sweptLater < at.now + PROBE_LEASE && VerdictOf(e) == Failure
    ensures var (s, v) := (w.states[key], Step(c, w, Settling(id, e, at)));
      && key in v.states && v.states[key].failures == s.failures + 1 && v.states[key].updatedAt == at.later
      && v.states[key].probeUntil == (if s.failures + 1 >= c.threshold then 0 else s.probeUntil)
      && v.states[key].openUntil == if s.failures + 1 >= c.threshold then at.later + c.cooldown else s.openUntil
  {
  }

  /** Every failed request counts once, until the threshold shuts the circuit. */
  lemma {:induction false} FailuresAddUp(c: Settings, w: World, key: Key, id: PermitId, o: Options, xs: seq<Tried>)
    requires SettingsOk(c) && OptionsOk(o) && Fresh(w, key) && Successive(xs) && 0 < |xs| <= c.threshold
    requires forall i :: 0 <= i < |xs| ==> Failed(xs[i], o)
    ensures var v := InARow(c, w, key, id, xs);
      && key in v.states && v.states[key].failures == |xs| && v.states[key].probeUntil == 0 && v.states[key].updatedAt == LastReport(xs)
      && v.states[key].openUntil == if |xs| >= c.threshold then LastReport(xs) + c.cooldown else 0
    decreases |xs|
  {
    var (before, x) := (xs[..|xs| - 1], xs[|xs| - 1]);
    FailedMeansFailure(x, o);
    assert InOrder(x.at, x.at.sweptAt);
    hide Step, Failed, Fresh;
    if before == [] {
      FirstTaken(c, w, key, id, x.at);
    } else {
      SuccessiveBefore(xs);
      FailuresAddUp(c, w, key, id, o, before);
      NextTaken(c, InARow(c, w, key, id, before), key, id, x.at);
    }
    Reported(c, Step(c, InARow(c, w, key, id, before), Taking(key, id, x.at)), key, id, x.ending, x.at);
  }

  lemma FailedMeansFailure(x: Tried, o: Options)
    requires OptionsOk(o) && Failed(x, o)
    ensures VerdictOf(x.ending) == Failure
  {
    VerdictMeans(x.turns, o, x.calls, x.ending);
  }

  lemma SuccessiveBefore(xs: seq<Tried>)
    requires |xs| >= 2 && Successive(xs)
    ensures Successive(xs[..|xs| - 1]) && InOrder(xs[|xs| - 1].at, xs[|xs| - 2].at.later)
  {
    var before := xs[..|xs| - 1];
    forall i | 0 <= i < |before| ensures before[i] == xs[i] {}
  }

  /** An acquisition is refused up to `reopens`, told how long to wait, and then is a probe. */
  predicate ShutUntil(c: Settings, states: Circuits, key: Key, reopens: nat, sweptAt: nat, now: nat) {
    var next := Acquire(c, states, key, sweptAt, now).1;
    if now < reopens then next == Err(Blocked(reopens - now)) else next.Ok? && next.value.probe
  }

  /** As many failed requests in a row as the threshold, from a circuit without failures, and
      the next one is refused until the cooldown is over; then it is let through as a probe. */
  lemma DeadProviderIsShutOff(c: Settings, w: World, key: Key, id: PermitId, o: Options, xs: seq<Tried>, sweptAt: nat, now: nat)
    requires SettingsOk(c) && OptionsOk(o) && Fresh(w, key) && Successive(xs) && 0 < |xs| == c.threshold
    requires forall i :: 0 <= i < |xs| ==> Failed(xs[i], o)
    requires LastReport(xs) <= sweptAt <= now && sweptAt <= LastReport(xs) + ENTRY_TTL
    ensures ShutUntil(c, InARow(c, w, key, id, xs).states, key, LastReport(xs) + c.cooldown, sweptAt, now)
  {
    hide *;
    FailuresAddUp(c, w, key, id, o, xs);
    CooldownShuts(c, InARow(c, w, key, id, xs).states, key, LastReport(xs), sweptAt, now);
  }

  lemma CooldownShuts(c: Settings, states: Circuits, key: Key, reported: nat, sweptAt: nat, now: nat)
    requires key in states && states[key].openUntil == reported + c.cooldown && states[key].probeUntil == 0
    requires SettingsOk(c) && states[key].updatedAt == reported && reported <= sweptAt <= now && sweptAt <= reported + ENTRY_TTL
    ensures ShutUntil(c, states, key, reported + c.cooldown, sweptAt, now)
  {
    AcquireOutcome(c, states, key, sweptAt, now);
  }
}

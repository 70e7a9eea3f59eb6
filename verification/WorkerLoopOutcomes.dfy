/** What each step of the worker loop does, and that the loop always comes to its goals: a claim
    is executed only after a renewal went through, nothing gets stuck, and stop resolves. */
module WorkerLoopOutcomes {
  import opened Wrappers
  import opened WorkerLoop
  import opened WorkerLoopRefusals
  import opened WorkerLoopRuns
  import opened WorkerLoopSafety

  // ---------- the steps of a tick ----------

  /** The tick is over; the next poll is armed, unless the worker is to stop. */
  ghost predicate Ended(w: Loop, after: Loop, k: Id) {
    && after.ticks == w.ticks - {k} && after.beats == w.beats && after.renewals == w.renewals && after.sessions == w.sessions
    && if w.stopping then after.polls == w.polls else exists p: Id :: after.pollTimer == Some(p) && after.polls == w.polls + {p}
  }

  function Onward(w: Loop, step: Step): Pc
    requires step.TickRuns? || step.Initialized? || step.Prepared?
  {
    if step.Prepared? then Claiming else if step.Initialized? || w.initialized then Preparing else Initializing
  }

  predicate Fails(step: Step) {
    (step.Initialized? && !step.ok) || (step.Prepared? && !step.ok)
  }

  /** On its way to a claim a tick goes from stage to stage, or ends at the first failure or
      request to stop; the worker is initialised once. */
  lemma TickOutcome(w: Loop, step: Step)
    requires Enabled(w, step) && (step.TickRuns? || step.Initialized? || step.Prepared?)
    ensures var after := Next(w, step);
      && after.initialized == (w.initialized || (step.Initialized? && step.ok))
      && if w.stopping || Fails(step) then Ended(w, after, step.k)
         else after == w.(initialized := after.initialized, ticks := w.ticks[step.k := Onward(w, step)])
  {
    var next := w.next;
    assert Fails(step) || w.stopping || Next(w, step).ticks == w.ticks[step.k := Onward(w, step)];
    if !w.stopping && Fails(step) { assert Next(w, step).pollTimer == Some(next); }
  }

  /** A claim that is found while the worker runs opens a session, whose tick waits for the
      session's first renewal. */
  lemma ClaimOutcome(w: Loop, k: Id, found: bool)
    requires Inv(w) && Enabled(w, Claimed(k, found))
    ensures var (after, s) := (Next(w, Claimed(k, found)), |w.sessions|);
      if !found || w.stopping then Ended(w, after, k)
      else exists r: Id ::
        && r !in w.renewals && after.renewals == w.renewals[r := Renewal(s, Waiting)]
        && after.sessions == w.sessions + [Session(false, false, Some(r))] && after.active == Some(s)
        && after.ticks == w.ticks[k := FirstRenew(s, Some(r))] && after.beats == w.beats
  {
    var (after, s, r) := (Next(w, Claimed(k, found)), |w.sessions|, w.next);
    if found && !w.stopping {
      NewRenewal(w);
      hide Inv;
      assert after.sessions == w.sessions + [Session(false, false, Some(r))];
      assert after.renewals == w.renewals[r := Renewal(s, Waiting)];
    } else {
      hide Inv;
      if !w.stopping { assert after.pollTimer == Some(r); }
    }
  }

  lemma NewRenewal(w: Loop)
    requires Inv(w)
    ensures w.next !in w.renewals && w.next !in w.beats && w.next !in w.rearms && w.next !in w.ticks
  {
    assert w.next in w.renewals ==> RenewalOk(w, w.next);
    assert w.next in w.beats ==> BeatOk(w, w.next);
    assert w.next in w.rearms ==> RearmOk(w, w.next);
  }

  /** The tick has left execution: nothing is armed for its session, and what is left to wait
      for is the renewal that is pending. */
  ghost predicate Closing(w: Loop, after: Loop, k: Id, s: nat)
    requires s < |w.sessions|
  {
    && after.ticks == w.ticks[k := Draining(s, w.sessions[s].renewing)] && after.beats == map[] && after.heartbeatTimer == None
    && after.sessions == w.sessions[s := w.sessions[s].(completed := true)] && after.renewals == w.renewals
  }

  /** Once the first renewal is over the claim is executed with a heartbeat armed, unless the
      worker is to stop or the claim was aborted. */
  lemma FirstOutcome(w: Loop, k: Id)
    requires Inv(w) && Enabled(w, FirstRenewed(k))
    ensures var (after, s) := (Next(w, FirstRenewed(k)), w.ticks[k].session);
      if w.stopping || w.sessions[s].aborted then Closing(w, after, k, s)
      else
        && after.ticks == w.ticks[k := Executing(s)] && after.sessions == w.sessions && after.renewals == w.renewals
        && exists b: Id :: b !in w.beats && after.heartbeatTimer == Some(b) && after.beats == w.beats[b := s]
  {
    OnlyInFlight(w, k);
    assert SessionOk(w, w.ticks[k].session);
    NewRenewal(w);
    BeatsCleared(w);
    hide Inv;
    var b := w.next;
    assert b !in w.beats;
  }

  lemma BeatsCleared(w: Loop)
    requires Inv(w)
    ensures ClearHeartbeat(w).beats == map[]
  {
    forall b | b in w.beats ensures w.heartbeatTimer == Some(b) { assert BeatOk(w, b); }
  }

  /** When execution returns the heartbeat is cleared and the pending renewal waited for. */
  lemma ExecutedOutcome(w: Loop, k: Id)
    requires Inv(w) && Enabled(w, Executed(k))
    ensures Closing(w, Next(w, Executed(k)), k, w.ticks[k].session)
  {
    BeatsCleared(w);
    hide Inv;
  }

  /** Then the session is left, and the tick is over. */
  lemma DrainedOutcome(w: Loop, k: Id)
    requires Enabled(w, Drained(k))
    ensures Ended(w, Next(w, Drained(k)), k) && Next(w, Drained(k)).active == None
  {
    var next := w.next;
    if !w.stopping { assert Next(w, Drained(k)).pollTimer == Some(next); }
  }

  /** A poll starts a tick from the beginning. */
  lemma PollOutcome(w: Loop, p: Id)
    requires Inv(w) && Enabled(w, PollFires(p))
    ensures var after := Next(w, PollFires(p));
      after.polls == w.polls - {p} && after.pollTimer == None
      && exists k: Id :: k !in w.ticks && after.ticks == w.ticks[k := Begin] && after.inFlight == k
  {
    NewRenewal(w);
    hide Inv;
    var k := w.next;
    assert k !in w.ticks;
  }

  // ---------- renewals and heartbeats ----------

  /** Whoever asks for a renewal shares the pending one; without one a renewal is begun, unless
      the worker is to stop or the claim was aborted. */
  ghost predicate Asks(w: Loop, after: Loop, s: nat, awaits: Option<Id>)
    requires s < |w.sessions|
  {
    if w.sessions[s].renewing.Some? then awaits == w.sessions[s].renewing && after.renewals == w.renewals && after.sessions == w.sessions
    else if w.stopping || w.sessions[s].aborted then awaits == None && after.renewals == w.renewals && after.sessions == w.sessions
    else
      && awaits.Some? && awaits.value !in w.renewals && after.renewals == w.renewals[awaits.value := Renewal(s, Waiting)]
      && after.sessions == w.sessions[s := w.sessions[s].(renewing := awaits)]
  }

  lemma ExecuteRenewsOutcome(w: Loop, k: Id)
    requires Inv(w) && Enabled(w, ExecuteRenews(k))
    ensures exists awaits :: Asks(w, Next(w, ExecuteRenews(k)), w.ticks[k].session, awaits)
    ensures Next(w, ExecuteRenews(k)).ticks == w.ticks && Next(w, ExecuteRenews(k)).beats == w.beats
  {
    NewRenewal(w);
    hide Inv;
    assert Asks(w, Next(w, ExecuteRenews(k)), w.ticks[k].session, Renew(w, w.ticks[k].session).1);
  }

  /** A heartbeat asks for a renewal, and re-arms only when that is over. */
  lemma BeatOutcome(w: Loop, b: Id)
    requires Inv(w) && Enabled(w, BeatFires(b))
    ensures var (after, s) := (Next(w, BeatFires(b)), w.beats[b]);
      && after.beats == w.beats - {b} && after.heartbeatTimer == None && after.ticks == w.ticks
      && exists a: Id, awaits: Option<Id> :: a !in w.rearms && after.rearms == w.rearms[a := Rearm(s, awaits)] && Asks(w, after, s, awaits)
  {
    NewRenewal(w);
    NextIsNew(w);
    hide Inv;
    var (renewed, awaits) := Renew(w.(beats := w.beats - {b}, heartbeatTimer := None), w.beats[b]);
    var a := renewed.next;
    assert a !in w.rearms && Asks(w, Next(w, BeatFires(b)), w.beats[b], awaits);
  }

  lemma RearmOutcome(w: Loop, a: Id)
    requires Inv(w) && Enabled(w, Rearms(a))
    ensures var (after, s) := (Next(w, Rearms(a)), w.rearms[a].session);
      && after.rearms == w.rearms - {a} && after.renewals == w.renewals && after.sessions == w.sessions && after.ticks == w.ticks
      && if w.sessions[s].completed || w.stopping || w.sessions[s].aborted then after.beats == w.beats
         else exists b: Id :: b !in w.beats && after.heartbeatTimer == Some(b) && after.beats == w.beats[b := s]
  {
    NewRenewal(w);
    hide Inv;
    var b := w.next;
    assert b !in w.beats;
  }

  /** A renewal calls its dependency, settles, and is over; only a refusal or failure aborts. */
  lemma RenewalOutcome(w: Loop, step: Step)
    requires Enabled(w, step) && (step.RenewCalls? || step.RenewSettles? || step.RenewEnds?)
    ensures var (after, r) := (Next(w, step), step.r);
      var s := w.renewals[r].session;
      && after.ticks == w.ticks && after.beats == w.beats && after.rearms == w.rearms && after.stop == w.stop && after.inFlight == w.inFlight
      && after.renewals == (if step.RenewEnds? then w.renewals - {r}
                            else w.renewals[r := Renewal(s, if step.RenewCalls? then Calling else Settled)])
      && after.sessions == if step.RenewCalls? || (step.RenewSettles? && step.ok) then w.sessions
                           else if step.RenewEnds? then w.sessions[s := w.sessions[s].(renewing := None)]
                           else w.sessions[s := w.sessions[s].(aborted := true)]
  {
  }

  // ---------- stop ----------

  /** The claim being served, if any, is aborted. */
  function ServedAborted(w: Loop): Loop {
    if w.active.Some? && w.active.value < |w.sessions| then Aborting(w, w.active.value) else w
  }

  lemma StopHalts(w: Loop)
    requires w.stop == NotAsked
    ensures Next(w, StopAsked) == Halt(ServedAborted(w))
  {
    hide Halt, Aborting;
  }

  lemma ServedAbortedKeeps(w: Loop)
    requires Inv(w)
    ensures var v := ServedAborted(w); Inv(v) && v == w.(sessions := v.sessions) && |v.sessions| == |w.sessions|
    ensures forall s: nat :: w.active == Some(s) && s < |w.sessions| ==> ServedAborted(w).sessions[s].aborted
  {
    hide Inv;
    if w.active.Some? && w.active.value < |w.sessions| { AbortingKeeps(w, w.active.value); }
  }

  /** The first request to stop is taken down, disarms both timers and aborts the claim that is
      served; later ones change nothing. */
  lemma StopOutcome(w: Loop)
    requires Inv(w)
    ensures var after := Next(w, StopAsked);
      if w.stop != NotAsked then after == w
      else
        && after.stopping && after.stop == WaitsFor(w.inFlight) && after.polls == {} && after.beats == map[]
        && after.ticks == w.ticks && after.renewals == w.renewals
        && forall s: nat :: Serves(w, w.inFlight, s) ==> s < |after.sessions| && after.sessions[s].aborted
  {
    hide Inv, Serves, Next, Halt, ServedAborted;
    if w.stop == NotAsked {
      StopHalts(w);
      ServedAbortedKeeps(w);
      HaltIs(ServedAborted(w));
      forall s: nat | Serves(w, w.inFlight, s) ensures s < |w.sessions| && w.active == Some(s) { ServedIsActive(w, s); }
    } else {
      AskedAgain(w);
    }
  }

  lemma AskedAgain(w: Loop)
    requires w.stop != NotAsked
    ensures Next(w, StopAsked) == w
  {
  }

  /** Stop resolves when the tick it waits for is gone. */
  lemma StopResolvesOutcome(w: Loop)
    requires Enabled(w, StopResolves)
    ensures Next(w, StopResolves) == w.(stop := Stopped)
  {
  }

  // ---------- a claim is executed only after a renewal went through ----------

  /** Some step of the run settles a renewal of session s with success. */
  ghost predicate Granted(w: Loop, run: seq<Step>, s: nat)
    requires Legal(w, run)
    decreases |run|
  {
    run != [] && (GrantsAt(w, run[0], s) || Granted(Next(w, run[0]), run[1..], s))
  }

  predicate GrantsAt(w: Loop, step: Step, s: nat) {
    step.RenewSettles? && step.ok && step.r in w.renewals && w.renewals[step.r].session == s
  }

  predicate Outstanding(w: Loop, awaits: Option<Id>) {
    awaits.Some? && awaits.value in w.renewals && w.renewals[awaits.value].stage != Settled
  }

  /** The first renewal of s has not gone through. */
  ghost predicate NotYet(w: Loop, s: nat) {
    && NotExecuting(w, s)
    && forall k :: k in w.ticks && w.ticks[k].FirstRenew? && w.ticks[k].session == s ==>
         w.stopping || (s < |w.sessions| && w.sessions[s].aborted) || Outstanding(w, w.ticks[k].awaits)
  }

  lemma StoppingSticks(w: Loop, step: Step)
    requires Enabled(w, step)
    ensures w.stopping ==> Next(w, step).stopping
  {
  }

  lemma TicksKeepWaiting(w: Loop, step: Step, k: Id)
    requires Enabled(w, step) && OfTick(step) && k in Next(w, step).ticks && Next(w, step).ticks[k].FirstRenew?
    ensures (k in w.ticks && w.ticks[k] == Next(w, step).ticks[k]) || (step == Claimed(k, true) && !w.stopping)
  {
    hide Next;
    if step.Claimed? || step.FirstRenewed? || step.Executed? {
      SessionsKeepWaiting(w, step, k);
    } else if step.Drained? {
      DrainedOutcome(w, step.k);
    } else {
      TickOutcome(w, step);
    }
  }

  lemma SessionsKeepWaiting(w: Loop, step: Step, k: Id)
    requires Enabled(w, step) && (step.Claimed? || step.FirstRenewed? || step.Executed?)
    requires k in Next(w, step).ticks && Next(w, step).ticks[k].FirstRenew?
    ensures (k in w.ticks && w.ticks[k] == Next(w, step).ticks[k]) || (step == Claimed(k, true) && !w.stopping)
  {
    hide Renew, ClearHeartbeat, ScheduleHeartbeat, GoOn;
  }

  lemma EventsKeepWaiting(w: Loop, step: Step, k: Id)
    requires Enabled(w, step) && !OfTick(step) && k in Next(w, step).ticks && Next(w, step).ticks[k].FirstRenew?
    ensures k in w.ticks && w.ticks[k] == Next(w, step).ticks[k]
  {
  }

  /** A tick that waits for a first renewal has waited for it, or has just found its claim. */
  lemma FirstRenewStays(w: Loop, step: Step, k: Id)
    requires Enabled(w, step) && k in Next(w, step).ticks && Next(w, step).ticks[k].FirstRenew?
    ensures (k in w.ticks && w.ticks[k] == Next(w, step).ticks[k]) || (step == Claimed(k, true) && !w.stopping)
  {
    hide Next, Enabled;
    if OfTick(step) { TicksKeepWaiting(w, step, k); } else { EventsKeepWaiting(w, step, k); }
  }

  lemma OutstandingStays(w: Loop, step: Step, s: nat, awaits: Option<Id>)
    requires Inv(w) && Enabled(w, step) && Outstanding(w, awaits) && w.renewals[awaits.value].session == s && !GrantsAt(w, step, s)
    ensures Outstanding(Next(w, step), awaits) || Aborted(Next(w, step), s)
  {
    NewRenewal(w);
    assert RenewalOk(w, awaits.value);
    hide Inv;
  }

  lemma NotYetStep(w: Loop, step: Step, s: nat)
    requires Inv(w) && Enabled(w, step) && NotYet(w, s) && !GrantsAt(w, step, s)
    ensures NotYet(Next(w, step), s)
  {
    forall k ensures !Executes(Next(w, step), k, s) { NoExecutionYet(w, step, s, k); }
    forall k | k in Next(w, step).ticks && Next(w, step).ticks[k].FirstRenew? && Next(w, step).ticks[k].session == s
      ensures Next(w, step).stopping || Aborted(Next(w, step), s) || Outstanding(Next(w, step), Next(w, step).ticks[k].awaits)
    {
      FirstRenewYet(w, step, s, k);
    }
    hide Inv, Next, Enabled;
  }

  lemma NoExecutionYet(w: Loop, step: Step, s: nat, k: Id)
    requires Enabled(w, step) && NotYet(w, s)
    ensures !Executes(Next(w, step), k, s)
  {
    hide Next;
    if Executes(Next(w, step), k, s) {
      if step == FirstRenewed(k) {
        FirstExecutes(w, k, s);
      } else if OfTick(step) {
        OthersLeaveTicks(w, step, k, s);
      } else {
        EventsLeaveTicks(w, step, k, s);
      }
    }
  }

  lemma FirstRenewYet(w: Loop, step: Step, s: nat, k: Id)
    requires Inv(w) && Enabled(w, step) && NotYet(w, s) && !GrantsAt(w, step, s)
    requires k in Next(w, step).ticks && Next(w, step).ticks[k].FirstRenew? && Next(w, step).ticks[k].session == s
    ensures Next(w, step).stopping || Aborted(Next(w, step), s) || Outstanding(Next(w, step), Next(w, step).ticks[k].awaits)
  {
    FirstRenewStays(w, step, k);
    if step == Claimed(k, true) && !w.stopping {
      ClaimOutcome(w, k, true);
    } else {
      StoppingSticks(w, step);
      StepIsCalm(w, s, step);
      var awaits := w.ticks[k].awaits;
      if Outstanding(w, awaits) {
        AwaitedIsOwn(w, k, s);
        OutstandingStays(w, step, s, awaits);
      }
      hide Inv, Next, Enabled;
    }
  }

  lemma AwaitedIsOwn(w: Loop, k: Id, s: nat)
    requires Inv(w) && k in w.ticks && w.ticks[k].FirstRenew? && w.ticks[k].session == s && Outstanding(w, w.ticks[k].awaits)
    ensures w.renewals[w.ticks[k].awaits.value].session == s
  {
    OnlyInFlight(w, k);
    assert RenewalOk(w, w.ticks[k].awaits.value);
  }

  lemma {:induction false} NotYetUntilGranted(w: Loop, run: seq<Step>, s: nat)
    requires Inv(w) && Legal(w, run) && NotYet(w, s)
    ensures Granted(w, run, s) || NotYet(Exec(w, run), s)
    decreases |run|
  {
    hide Inv, Next, Enabled, NotYet, GrantsAt;
    if run != [] && !GrantsAt(w, run[0], s) {
      StepKeeps(w, run[0]);
      NotYetStep(w, run[0], s);
      NotYetUntilGranted(Next(w, run[0]), run[1..], s);
    }
  }

  /** A claim that is executed had a renewal go through since it was found. */
  lemma ExecutedIsGranted(run: seq<Step>, k: Id, s: nat)
    requires Legal(START, run) && Executes(Exec(START, run), k, s)
    ensures Granted(START, run, s)
  {
    Keeps(START, []);
    NotYetUntilGranted(START, run, s);
  }

  // ---------- renewals go in order ----------

  /** A step of the run calls the dependency for renewal r. */
  predicate Called(run: seq<Step>, r: Id) {
    RenewCalls(r) in run
  }

  /** Renewals after a step: as before, with perhaps a new one, or one that has gone on. */
  lemma RenewalsAfter(w: Loop, step: Step)
    requires Inv(w) && Enabled(w, step)
    ensures var (before, after) := (w.renewals, Next(w, step).renewals);
      if step.RenewCalls? then after == before[step.r := Renewal(before[step.r].session, Calling)]
      else if step.RenewSettles? then after == before[step.r := Renewal(before[step.r].session, Settled)]
      else if step.RenewEnds? then after == before - {step.r}
      else after == before || exists r: Id, s: nat :: r !in before && after == before[r := Renewal(s, Waiting)]
  {
    hide Inv, Next, ClearHeartbeat, Serves;
    match step
    case Claimed(k, found) => ClaimOutcome(w, k, found);
    case FirstRenewed(k) => FirstOutcome(w, k);
    case ExecuteRenews(k) => ExecuteRenewsOutcome(w, k);
    case Executed(k) => ExecutedOutcome(w, k);
    case Drained(k) => DrainedOutcome(w, k);
    case BeatFires(b) => BeatOutcome(w, b);
    case Rearms(a) => RearmOutcome(w, a);
    case PollFires(_) => OtherRenewals(w, step);
    case StopAsked => StopOutcome(w);
    case StopResolves => OtherRenewals(w, step);
    case RenewCalls(_) => RenewalOutcome(w, step);
    case RenewSettles(_, _) => RenewalOutcome(w, step);
    case RenewEnds(_) => RenewalOutcome(w, step);
    case _ => TickOutcome(w, step);
  }

  lemma OtherRenewals(w: Loop, step: Step)
    requires Enabled(w, step) && (step.PollFires? || step.StopResolves?)
    ensures Next(w, step).renewals == w.renewals
  {
  }

  lemma StageCameFrom(w: Loop, step: Step, r: Id)
    requires Inv(w) && Enabled(w, step) && r in Next(w, step).renewals && Next(w, step).renewals[r].stage != Waiting
    ensures step == RenewCalls(r) || (r in w.renewals && w.renewals[r].stage != Waiting)
  {
    RenewalsAfter(w, step);
    hide Inv, Next;
  }

  lemma {:induction false} CalledBefore(w: Loop, run: seq<Step>, r: Id)
    requires Inv(w) && Legal(w, run) && r in Exec(w, run).renewals && Exec(w, run).renewals[r].stage != Waiting
    ensures Called(run, r) || (r in w.renewals && w.renewals[r].stage != Waiting)
    decreases |run|
  {
    hide Inv, Next, Enabled;
    if run != [] {
      StepKeeps(w, run[0]);
      CalledBefore(Next(w, run[0]), run[1..], r);
      if Called(run[1..], r) { assert Called(run, r); } else { StageCameFrom(w, run[0], r); }
    }
  }

  /** A renewal settles only after its dependency was called, and is over only when it has
      settled. */
  lemma RenewalsInOrder(run: seq<Step>, step: Step)
    requires Legal(START, run) && Enabled(Exec(START, run), step)
    ensures step.RenewSettles? ==> Called(run, step.r) && Exec(START, run).renewals[step.r].stage == Calling
    ensures step.RenewEnds? ==> Called(run, step.r) && Exec(START, run).renewals[step.r].stage == Settled
    ensures step.RenewCalls? ==> Exec(START, run).renewals[step.r].stage == Waiting
  {
    Keeps(START, []);
    if step.RenewSettles? || step.RenewEnds? { CalledBefore(START, run, step.r); }
  }

  // ---------- nothing gets stuck ----------

  /** A renewal that is pending can go on. */
  predicate RenewalCanGo(w: Loop, r: Id) {
    || Enabled(w, RenewCalls(r))
    || (Enabled(w, RenewSettles(r, true)) && Enabled(w, RenewSettles(r, false)))
    || Enabled(w, RenewEnds(r))
  }

  /** What is awaited is over, or can go on. */
  predicate NoWait(w: Loop, awaits: Option<Id>) {
    awaits.None? || awaits.value !in w.renewals || RenewalCanGo(w, awaits.value)
  }

  predicate TickCanGo(w: Loop, k: Id) {
    || Enabled(w, TickRuns(k))
    || (Enabled(w, Initialized(k, true)) && Enabled(w, Initialized(k, false)))
    || (Enabled(w, Prepared(k, true)) && Enabled(w, Prepared(k, false)))
    || (Enabled(w, Claimed(k, true)) && Enabled(w, Claimed(k, false)))
    || Enabled(w, FirstRenewed(k)) || Enabled(w, Executed(k)) || Enabled(w, Drained(k))
    || (k in w.ticks && w.ticks[k].FirstRenew? && w.ticks[k].awaits.Some? && RenewalCanGo(w, w.ticks[k].awaits.value))
    || (k in w.ticks && w.ticks[k].Draining? && w.ticks[k].awaits.Some? && RenewalCanGo(w, w.ticks[k].awaits.value))
  }

  lemma RenewalGoes(w: Loop, r: Id)
    requires Inv(w) && r in w.renewals
    ensures RenewalCanGo(w, r)
  {
    assert RenewalOk(w, r);
    hide Inv;
  }

  predicate RearmCanGo(w: Loop, a: Id)
    requires a in w.rearms
  {
    Enabled(w, Rearms(a)) || (w.rearms[a].awaits.Some? && RenewalCanGo(w, w.rearms[a].awaits.value))
  }

  ghost predicate AllCanGo(w: Loop) {
    && (forall k :: k in w.ticks ==> TickCanGo(w, k))
    && (forall r :: r in w.renewals ==> RenewalCanGo(w, r))
    && (forall b :: b in w.beats ==> Enabled(w, BeatFires(b)))
    && (forall a :: a in w.rearms ==> RearmCanGo(w, a))
    && (forall p :: p in w.polls ==> Enabled(w, PollFires(p)))
    && (w.stop.WaitsFor? ==> Enabled(w, StopResolves) || TickCanGo(w, w.stop.tick))
  }

  lemma TimersGo(w: Loop)
    requires Inv(w)
    ensures forall b :: b in w.beats ==> Enabled(w, BeatFires(b))
    ensures forall p :: p in w.polls ==> Enabled(w, PollFires(p))
    ensures w.stop.WaitsFor? && w.stop.tick !in w.ticks ==> Enabled(w, StopResolves)
  {
    forall b | b in w.beats ensures Enabled(w, BeatFires(b)) { assert BeatOk(w, b); }
    hide Inv;
  }

  /** In every reachable state whatever is pending can go on: each tick, each renewal, each
      timer, each continuation and each stop, at once or when a renewal that can go on is over. */
  lemma NeverStuck(run: seq<Step>)
    requires Legal(START, run)
    ensures AllCanGo(Exec(START, run))
  {
    hide Inv, Exec, Legal, TickCanGo, RenewalCanGo, RearmCanGo, Enabled;
    StartKeeps(run);
    var w := Exec(START, run);
    TimersGo(w);
    forall r | r in w.renewals ensures RenewalCanGo(w, r) { RenewalGoes(w, r); }
    forall k | k in w.ticks ensures TickCanGo(w, k) { TickGoes(w, k); }
    forall a | a in w.rearms ensures RearmCanGo(w, a) { RearmGoes(w, a); }
  }

  lemma StartKeeps(run: seq<Step>)
    requires Legal(START, run)
    ensures Inv(Exec(START, run))
  {
    Keeps(START, run);
  }

  lemma TickGoes(w: Loop, k: Id)
    requires Inv(w) && k in w.ticks
    ensures TickCanGo(w, k)
  {
    assert TickOk(w, k);
    if (w.ticks[k].FirstRenew? || w.ticks[k].Draining?) && w.ticks[k].awaits.Some? && w.ticks[k].awaits.value in w.renewals {
      RenewalGoes(w, w.ticks[k].awaits.value);
    }
    hide Inv, RenewalCanGo;
  }

  lemma RearmGoes(w: Loop, a: Id)
    requires Inv(w) && a in w.rearms
    ensures RearmCanGo(w, a)
  {
    assert RearmOk(w, a);
    if w.rearms[a].awaits.Some? && w.rearms[a].awaits.value in w.renewals { RenewalGoes(w, w.rearms[a].awaits.value); }
    hide Inv, RenewalCanGo;
  }

  // ---------- stop comes to its end ----------

  ghost function InStage(w: Loop, stage: Stage): set<Id> {
    set r | r in w.renewals && w.renewals[r].stage == stage
  }

  function Rank(pc: Pc): nat {
    if pc.FirstRenew? || pc.Executing? then 2 else 1
  }

  ghost function Weight(w: Loop): nat {
    3 * |InStage(w, Waiting)| + 2 * |InStage(w, Calling)| + |InStage(w, Settled)|
  }

  /** What is left to be done before stop has resolved and every continuation has run. */
  ghost function Remaining(w: Loop): nat {
    (if w.inFlight in w.ticks then Rank(w.ticks[w.inFlight]) else 0) + Weight(w) + |w.rearms| + (if w.stop.WaitsFor? then 1 else 0)
  }

  lemma CallWeighs(w: Loop, after: Loop, r: Id)
    requires r in w.renewals && w.renewals[r].stage == Waiting && after.renewals == w.renewals[r := Renewal(w.renewals[r].session, Calling)]
    ensures Weight(after) < Weight(w)
  {
    assert InStage(after, Calling) == InStage(w, Calling) + {r};
    assert InStage(after, Waiting) == InStage(w, Waiting) - {r};
    assert InStage(after, Settled) == InStage(w, Settled);
  }

  lemma SettlingWeighs(w: Loop, after: Loop, r: Id)
    requires r in w.renewals && w.renewals[r].stage == Calling && after.renewals == w.renewals[r := Renewal(w.renewals[r].session, Settled)]
    ensures Weight(after) < Weight(w)
  {
    assert InStage(after, Settled) == InStage(w, Settled) + {r};
    assert InStage(after, Calling) == InStage(w, Calling) - {r};
    assert InStage(after, Waiting) == InStage(w, Waiting);
  }

  lemma EndWeighs(w: Loop, after: Loop, r: Id)
    requires r in w.renewals && w.renewals[r].stage == Settled && after.renewals == w.renewals - {r}
    ensures Weight(after) < Weight(w)
  {
    assert InStage(after, Settled) == InStage(w, Settled) - {r};
    assert InStage(after, Calling) == InStage(w, Calling) && InStage(after, Waiting) == InStage(w, Waiting);
  }

  lemma SameWeight(w: Loop, after: Loop)
    requires after.renewals == w.renewals
    ensures Weight(after) == Weight(w)
  {
    assert forall stage :: InStage(after, stage) == InStage(w, stage);
  }

  /** After stop was asked for, asking again and asking for a renewal change nothing, and every
      other step brings the end nearer. */
  lemma StopNears(w: Loop, step: Step)
    requires Inv(w) && w.stopping && Enabled(w, step)
    ensures if step.StopAsked? || step.ExecuteRenews? then Next(w, step) == w else Remaining(Next(w, step)) < Remaining(w)
  {
    StoppingMeans(w);
    if step.RenewCalls? || step.RenewSettles? || step.RenewEnds? {
      RenewalNears(w, step);
    } else if OfTick(step) {
      TickNears(w, step);
    } else {
      OtherNears(w, step);
    }
  }

  lemma StageOf(w: Loop, step: Step)
    requires Enabled(w, step)
    ensures step.RenewCalls? ==> step.r in w.renewals && w.renewals[step.r].stage == Waiting
    ensures step.RenewSettles? ==> step.r in w.renewals && w.renewals[step.r].stage == Calling
    ensures step.RenewEnds? ==> step.r in w.renewals && w.renewals[step.r].stage == Settled
  {
  }

  lemma RenewalNears(w: Loop, step: Step)
    requires Enabled(w, step) && (step.RenewCalls? || step.RenewSettles? || step.RenewEnds?)
    ensures Remaining(Next(w, step)) < Remaining(w)
  {
    hide Next, Weight, Rank, Enabled;
    RenewalOutcome(w, step);
    StageOf(w, step);
    var after := Next(w, step);
    if step.RenewCalls? {
      CallWeighs(w, after, step.r);
    } else if step.RenewSettles? {
      SettlingWeighs(w, after, step.r);
    } else {
      EndWeighs(w, after, step.r);
    }
  }

  lemma TickNears(w: Loop, step: Step)
    requires Inv(w) && w.stopping && Enabled(w, step) && OfTick(step)
    ensures Remaining(Next(w, step)) < Remaining(w)
  {
    OnlyInFlight(w, step.k);
    TickLeaves(w, step);
    SameWeight(w, Next(w, step));
    hide Inv, Next, Weight, Enabled, Rank;
  }

  lemma TickLeaves(w: Loop, step: Step)
    requires w.stopping && Enabled(w, step) && OfTick(step) && step.k == w.inFlight
    ensures var after := Next(w, step);
      && after.renewals == w.renewals && after.rearms == w.rearms && after.stop == w.stop && after.inFlight == w.inFlight
      && (if w.inFlight in after.ticks then Rank(after.ticks[w.inFlight]) else 0) < Rank(w.ticks[w.inFlight])
  {
  }

  lemma OtherNears(w: Loop, step: Step)
    requires w.stopping && w.polls == {} && w.beats == map[] && w.stop != NotAsked && Enabled(w, step)
    requires !OfTick(step) && !step.RenewCalls? && !step.RenewSettles? && !step.RenewEnds?
    requires forall a :: a in w.rearms ==> w.rearms[a].session < |w.sessions|
    ensures if step.StopAsked? || step.ExecuteRenews? then Next(w, step) == w else Remaining(Next(w, step)) < Remaining(w)
  {
    if step.Rearms? || step.StopResolves? { SameWeight(w, Next(w, step)); }
    hide Weight, Rank;
  }

  predicate Repeats(step: Step) {
    step.StopAsked? || step.ExecuteRenews?
  }

  /** The steps that are neither another request to stop nor a request for a renewal. */
  function Efforts(run: seq<Step>): nat {
    if run == [] then 0 else (if Repeats(run[0]) then 0 else 1) + Efforts(run[1..])
  }

  lemma {:induction false} EffortsAreBounded(w: Loop, rest: seq<Step>)
    requires Inv(w) && w.stopping && Legal(w, rest)
    ensures Efforts(rest) + Remaining(Exec(w, rest)) <= Remaining(w)
    ensures Inv(Exec(w, rest)) && Exec(w, rest).stopping
    decreases |rest|
  {
    hide Inv, Next, Enabled, Remaining;
    if rest != [] {
      StepKeeps(w, rest[0]);
      StoppingSticks(w, rest[0]);
      StopNears(w, rest[0]);
      EffortsAreBounded(Next(w, rest[0]), rest[1..]);
    }
  }

  ghost predicate Settles(w: Loop) {
    forall step :: Enabled(w, step) ==> Repeats(step)
  }

  lemma StepLeft(w: Loop, step: Step)
    requires Enabled(w, step) && !Repeats(step)
    ensures !Settles(w)
  {
  }

  lemma RenewalLeft(w: Loop, r: Id)
    requires RenewalCanGo(w, r)
    ensures !Settles(w)
  {
    hide Enabled, Settles;
    if Enabled(w, RenewCalls(r)) {
      StepLeft(w, RenewCalls(r));
    } else if Enabled(w, RenewEnds(r)) {
      StepLeft(w, RenewEnds(r));
    } else {
      StepLeft(w, RenewSettles(r, true));
    }
  }

  lemma TickLeft(w: Loop, k: Id)
    requires TickCanGo(w, k)
    ensures !Settles(w)
  {
    hide Enabled, Settles, RenewalCanGo;
    if Enabled(w, TickRuns(k)) {
      StepLeft(w, TickRuns(k));
    } else if Enabled(w, Initialized(k, true)) {
      StepLeft(w, Initialized(k, true));
    } else if Enabled(w, Prepared(k, true)) {
      StepLeft(w, Prepared(k, true));
    } else if Enabled(w, Claimed(k, true)) {
      StepLeft(w, Claimed(k, true));
    } else if Enabled(w, FirstRenewed(k)) {
      StepLeft(w, FirstRenewed(k));
    } else if Enabled(w, Executed(k)) {
      StepLeft(w, Executed(k));
    } else if Enabled(w, Drained(k)) {
      StepLeft(w, Drained(k));
    } else {
      RenewalLeft(w, w.ticks[k].awaits.value);
    }
  }

  /** After stop was asked for only so many steps can follow as are left to be done, and when
      none can, stop has resolved with nothing left: it resolves in every run that goes on. */
  lemma StopComesToItsEnd(run: seq<Step>, rest: seq<Step>)
    requires Legal(START, run) && Exec(START, run).stopping && Legal(Exec(START, run), rest)
    ensures Efforts(rest) <= Remaining(Exec(START, run))
    ensures Settles(Exec(Exec(START, run), rest)) ==> Exec(Exec(START, run), rest).stop.Stopped?
  {
    Keeps(START, run);
    EffortsAreBounded(Exec(START, run), rest);
    var w := Exec(Exec(START, run), rest);
    if Settles(w) { StopHasResolved(w); }
    hide Inv, Next, Enabled, Remaining, Settles;
  }

  lemma StopHasResolved(w: Loop)
    requires Inv(w) && w.stopping && Settles(w)
    ensures w.stop.Stopped?
  {
    assert StopOk(w);
    hide Inv, TickCanGo;
    if w.stop.WaitsFor? {
      if Enabled(w, StopResolves) {
        StepLeft(w, StopResolves);
      } else {
        TickGoes(w, w.stop.tick);
        TickLeft(w, w.stop.tick);
      }
    }
  }
}

/** What the worker loop promises in every interleaving. */
module WorkerLoopSafety {
  import opened Wrappers
  import opened Finite
  import opened WorkerLoop
  import opened WorkerLoopRuns

  ghost predicate Legal(w: Loop, run: seq<Step>)
    decreases |run|
  {
    run == [] || (Enabled(w, run[0]) && Legal(Next(w, run[0]), run[1..]))
  }

  ghost function Exec(w: Loop, run: seq<Step>): Loop
    requires Legal(w, run)
    decreases |run|
  {
    if run == [] then w else Exec(Next(w, run[0]), run[1..])
  }

  lemma {:induction false} Keeps(w: Loop, run: seq<Step>)
    requires Inv(w) && Legal(w, run)
    ensures Inv(Exec(w, run))
    decreases |run|
  {
    hide Inv, Next, Enabled;
    if run != [] {
      StepKeeps(w, run[0]);
      Keeps(Next(w, run[0]), run[1..]);
    }
  }

  /** At most one renewal is in flight, at most one heartbeat is armed, and at most one tick
      runs, with no poll timer armed beside it. */
  lemma OneOfEach(run: seq<Step>)
    requires Legal(START, run)
    ensures var w := Exec(START, run);
      |w.renewals| <= 1 && |w.beats| <= 1 && |w.ticks| <= 1 && |w.polls| <= 1 && (w.polls != {} ==> w.ticks == map[])
  {
    Keeps(START, run);
    var w := Exec(START, run);
    forall a, b | a in w.renewals && b in w.renewals ensures a == b {
      assert RenewalOk(w, a) && RenewalOk(w, b);
      assert InSession(w.ticks[w.inFlight], w.renewals[a].session) && InSession(w.ticks[w.inFlight], w.renewals[b].session);
    }
    AtMostOne(w.renewals.Keys);
    forall a, b | a in w.beats && b in w.beats ensures a == b {
      assert BeatOk(w, a) && BeatOk(w, b);
    }
    AtMostOne(w.beats.Keys);
    AtMostOne(w.ticks.Keys);
    AtMostOne(w.polls);
  }

  predicate BetweenClaims(pc: Pc) {
    pc == Begin || pc == Initializing || pc == Preparing || pc == Claiming
  }

  /** No claim is asked for, and no new tick starts, while a renewal of an earlier claim is
      pending or its heartbeat armed. */
  lemma ClaimsWaitForRenewals(run: seq<Step>, k: Id)
    requires Legal(START, run)
    requires var w := Exec(START, run); (k in w.ticks && BetweenClaims(w.ticks[k])) || k in w.polls
    ensures Exec(START, run).renewals == map[] && Exec(START, run).beats == map[]
  {
    Keeps(START, run);
    var w := Exec(START, run);
    if k in w.ticks { OnlyInFlight(w, k); }
    IdleTick(w);
  }

  /** The steps of ticks; the others are events of timers, renewals and stop. */
  predicate OfTick(step: Step) {
    step.TickRuns? || step.Initialized? || step.Prepared? || step.Claimed? || step.FirstRenewed? || step.Executed? || step.Drained?
  }

  // ---------- stop ----------

  /** No dependency is being called, and nothing is left that could call one. */
  predicate Quiet(w: Loop) {
    && w.ticks == map[] && w.renewals == map[] && w.polls == {} && w.beats == map[]
  }

  lemma StoppedIsQuiet(w: Loop)
    requires Inv(w) && w.stop.Stopped?
    ensures Quiet(w)
  {
    IdleTick(w);
  }

  lemma StoppedStays(w: Loop, step: Step)
    requires Inv(w) && w.stop.Stopped? && Enabled(w, step)
    ensures Next(w, step).stop.Stopped?
  {
    StoppedIsQuiet(w);
  }

  /** Once the promise of stop has resolved, nothing runs and nothing can start, ever. */
  lemma {:induction false} StopIsFinal(run: seq<Step>, rest: seq<Step>)
    requires Legal(START, run) && Exec(START, run).stop.Stopped? && Legal(Exec(START, run), rest)
    ensures Quiet(Exec(Exec(START, run), rest))
  {
    Keeps(START, run);
    QuietForever(Exec(START, run), rest);
  }

  lemma {:induction false} QuietForever(w: Loop, rest: seq<Step>)
    requires Inv(w) && w.stop.Stopped? && Legal(w, rest)
    ensures Quiet(Exec(w, rest))
    decreases |rest|
  {
    hide Inv, Next, Enabled, Quiet;
    StoppedIsQuiet(w);
    if rest != [] {
      StepKeeps(w, rest[0]);
      StoppedStays(w, rest[0]);
      QuietForever(Next(w, rest[0]), rest[1..]);
    }
  }

  ghost predicate NothingNew(w: Loop, after: Loop) {
    && after.renewals.Keys <= w.renewals.Keys && |after.sessions| == |w.sessions|
    && after.ticks.Keys <= w.ticks.Keys && after.polls == {} && after.beats == map[]
  }

  lemma NoTickBegins(w: Loop, step: Step)
    requires Enabled(w, step) && w.stopping && w.polls == {} && w.beats == map[] && w.stop != NotAsked && OfTick(step)
    ensures NothingNew(w, Next(w, step))
  {
  }

  lemma NoEventBegins(w: Loop, step: Step)
    requires Enabled(w, step) && w.stopping && w.polls == {} && w.beats == map[] && w.stop != NotAsked && !OfTick(step)
    ensures NothingNew(w, Next(w, step))
  {
  }

  /** After stop is asked for, no claim is taken up, no renewal is begun and no timer armed:
      the running tick can only come to its end. */
  lemma NothingBeginsAfterStop(run: seq<Step>, step: Step)
    requires Legal(START, run) && Exec(START, run).stopping && Enabled(Exec(START, run), step)
    ensures NothingNew(Exec(START, run), Next(Exec(START, run), step))
  {
    Keeps(START, run);
    hide Inv, Next, Enabled, Exec;
    StoppingMeans(Exec(START, run));
    if OfTick(step) { NoTickBegins(Exec(START, run), step); } else { NoEventBegins(Exec(START, run), step); }
  }

  // ---------- what keeps going ----------

  predicate ChainOf(w: Loop, s: nat) {
    (exists b :: b in w.beats && w.beats[b] == s) || (exists a :: a in w.rearms && w.rearms[a].session == s)
  }

  /** While a claim is executed under an unbroken lease, its heartbeat chain is not lost. */
  ghost predicate HeartAlive(w: Loop) {
    forall k, s: nat :: k in w.ticks && w.ticks[k] == Executing(s) && s < |w.sessions| && !w.stopping && !w.sessions[s].aborted ==> ChainOf(w, s)
  }

  /** Until stop is asked for, a tick runs or the next one is scheduled. */
  predicate LoopAlive(w: Loop) {
    !w.stopping ==> w.ticks != map[] || w.polls != {}
  }

  lemma FirstArms(w: Loop, k: Id, s: nat)
    requires Inv(w) && Enabled(w, FirstRenewed(k)) && w.ticks[k].session == s && !w.stopping && !w.sessions[s].aborted
    ensures ChainOf(Next(w, FirstRenewed(k)), s)
  {
    OnlyInFlight(w, k);
    assert SessionOk(w, s);
    hide Inv;
    assert w.next in Next(w, FirstRenewed(k)).beats;
  }

  lemma NextIsNew(w: Loop)
    requires Inv(w)
    ensures w.next !in w.beats && forall a :: a in w.rearms ==> a < w.next
  {
    assert w.next in w.beats ==> BeatOk(w, w.next);
    forall a | a in w.rearms ensures a < w.next {
      assert RearmOk(w, a);
    }
  }

  lemma BeatGoesOn(w: Loop, step: Step, b: Id)
    requires Inv(w) && Enabled(w, step) && b in w.beats && !Next(w, step).stopping
    requires !OfTick(step)
    ensures ChainOf(Next(w, step), w.beats[b])
  {
    NextIsNew(w);
    hide Inv;
    var after := Next(w, step);
    if step == BeatFires(b) {
      var a := Renew(w.(beats := w.beats - {b}, heartbeatTimer := None), w.beats[b]).0.next;
      assert a in after.rearms && after.rearms[a].session == w.beats[b];
    } else {
      assert b in after.beats && after.beats[b] == w.beats[b];
    }
  }

  lemma RenewSparesRearms(w: Loop, s: nat)
    requires s < |w.sessions|
    ensures Renew(w, s).0.rearms == w.rearms && Renew(w, s).0.next >= w.next
    ensures ScheduleHeartbeat(w, s).rearms == w.rearms
  {
  }

  lemma TickSparesRearms(w: Loop, k: Id, pc: Pc, s: nat)
    ensures EndTick(w, k).rearms == w.rearms && GoOn(w, k, pc).rearms == w.rearms
    ensures ClaimFound(w, k).rearms == w.rearms && (s < |w.sessions| ==> Finish(w, k, s).rearms == w.rearms)
  {
  }

  lemma StopSparesRearms(w: Loop)
    ensures AskStop(w).rearms == w.rearms
  {
  }

  lemma RearmStays(w: Loop, step: Step, a: Id)
    requires Enabled(w, step) && a in w.rearms && a < w.next && step != Rearms(a)
    ensures a in Next(w, step).rearms && Next(w, step).rearms[a] == w.rearms[a]
  {
    hide Renew, ScheduleHeartbeat, EndTick, GoOn, ClaimFound, Finish, AskStop, Aborting;
    match step
    case TickRuns(k) => TickSparesRearms(w, k, if w.initialized then Preparing else Initializing, 0);
    case Initialized(k, ok) => TickSparesRearms(if ok then w.(initialized := true) else w, k, Preparing, 0);
    case Prepared(k, _) => TickSparesRearms(w, k, Claiming, 0);
    case Claimed(k, _) => TickSparesRearms(w, k, Claiming, 0);
    case FirstRenewed(k) =>
      RenewSparesRearms(w, w.ticks[k].session);
      TickSparesRearms(w, k, Claiming, w.ticks[k].session);
    case ExecuteRenews(k) => RenewSparesRearms(w, w.ticks[k].session);
    case Executed(k) => TickSparesRearms(w, k, Claiming, w.ticks[k].session);
    case Drained(k) => TickSparesRearms(w.(active := None), k, Claiming, 0);
    case RenewSettles(_, _) => AbortingSparesRearms(w, step);
    case BeatFires(b) => RenewSparesRearms(w.(beats := w.beats - {b}, heartbeatTimer := None), w.beats[b]);
    case Rearms(other) => RenewSparesRearms(w.(rearms := w.rearms - {other}), w.rearms[other].session);
    case StopAsked => StopSparesRearms(w);
    case _ =>
  }

  lemma AbortingSparesRearms(w: Loop, step: Step)
    requires Enabled(w, step) && step.RenewSettles?
    ensures Next(w, step).rearms == w.rearms
  {
  }

  lemma RearmGoesOn(w: Loop, step: Step, a: Id)
    requires Inv(w) && Enabled(w, step) && a in w.rearms && w.rearms[a].session < |w.sessions|
    requires !w.stopping && !w.sessions[w.rearms[a].session].aborted && !w.sessions[w.rearms[a].session].completed
    ensures ChainOf(Next(w, step), w.rearms[a].session)
  {
    NextIsNew(w);
    hide Inv;
    var after := Next(w, step);
    if step == Rearms(a) {
      assert w.next in after.beats && after.beats[w.next] == w.rearms[a].session;
    } else {
      hide Next;
      RearmStays(w, step, a);
    }
  }

  predicate Sticks(w: Loop, after: Loop, s: nat)
    requires s < |w.sessions|
  {
    s < |after.sessions| && (w.stopping ==> after.stopping) && (w.sessions[s].aborted ==> after.sessions[s].aborted)
  }

  lemma EventSticks(w: Loop, step: Step, s: nat)
    requires Enabled(w, step) && s < |w.sessions| && !OfTick(step)
    ensures Sticks(w, Next(w, step), s)
  {
  }

  predicate Executes(w: Loop, k: Id, s: nat) {
    k in w.ticks && w.ticks[k] == Executing(s)
  }

  lemma EventsLeaveTicks(w: Loop, step: Step, k: Id, s: nat)
    requires Enabled(w, step) && !OfTick(step) && Executes(Next(w, step), k, s)
    ensures Executes(w, k, s)
  {
  }

  lemma OthersLeaveTicks(w: Loop, step: Step, k: Id, s: nat)
    requires Enabled(w, step) && OfTick(step) && Executes(Next(w, step), k, s) && step != FirstRenewed(k)
    ensures Executes(w, k, s) && step.k != k
  {
  }

  lemma FirstExecutes(w: Loop, k: Id, s: nat)
    requires Enabled(w, FirstRenewed(k)) && Executes(Next(w, FirstRenewed(k)), k, s)
    ensures w.ticks[k].session == s && !w.stopping && !w.sessions[s].aborted
  {
  }

  lemma HeartEvent(w: Loop, step: Step, k: Id, s: nat)
    requires Inv(w) && Enabled(w, step) && !OfTick(step) && Executes(w, k, s) && s < |w.sessions|
    requires !Next(w, step).stopping && !w.stopping && !w.sessions[s].aborted && ChainOf(w, s)
    ensures ChainOf(Next(w, step), s)
  {
    OnlyInFlight(w, k);
    assert SessionOk(w, s);
    hide Inv, Next, Enabled;
    if b :| b in w.beats && w.beats[b] == s {
      BeatGoesOn(w, step, b);
    } else {
      var a :| a in w.rearms && w.rearms[a].session == s;
      RearmGoesOn(w, step, a);
    }
  }

  lemma HeartStep(w: Loop, step: Step, k: Id, s: nat)
    requires Inv(w) && HeartAlive(w) && Enabled(w, step)
    requires var after := Next(w, step);
      k in after.ticks && after.ticks[k] == Executing(s) && s < |after.sessions| && !after.stopping && !after.sessions[s].aborted
    ensures ChainOf(Next(w, step), s)
  {
    if step == FirstRenewed(k) {
      FirstExecutes(w, k, s);
      FirstArms(w, k, s);
    } else if OfTick(step) {
      hide Next;
      OnlyInFlight(w, step.k);
      OthersLeaveTicks(w, step, k, s);
      OnlyInFlight(w, k);
    } else {
      hide Next;
      EventsLeaveTicks(w, step, k, s);
      assert TickOk(w, k);
      hide Inv, Enabled;
      EventSticks(w, step, s);
      HeartEvent(w, step, k, s);
    }
  }

  lemma {:induction false} NeverSilent(w: Loop, run: seq<Step>)
    requires Inv(w) && HeartAlive(w) && LoopAlive(w) && Legal(w, run)
    ensures HeartAlive(Exec(w, run)) && LoopAlive(Exec(w, run))
    decreases |run|
  {
    if run != [] {
      var after := Next(w, run[0]);
      forall k, s: nat | k in after.ticks && after.ticks[k] == Executing(s) && s < |after.sessions| && !after.stopping && !after.sessions[s].aborted
        ensures ChainOf(after, s)
      {
        HeartStep(w, run[0], k, s);
      }
      LoopStep(w, run[0]);
      StepKeeps(w, run[0]);
      hide Inv, Next, Enabled, HeartAlive, LoopAlive;
      NeverSilent(after, run[1..]);
    }
  }

  lemma LoopStep(w: Loop, step: Step)
    requires Inv(w) && LoopAlive(w) && Enabled(w, step)
    ensures LoopAlive(Next(w, step))
  {
    hide Inv;
    var after := Next(w, step);
    if step.PollFires? {
      assert w.next in after.ticks;
    } else if k :| k in w.ticks {
      OnlyInFlight(w, k);
      assert !(k in after.ticks) && !after.stopping ==> w.next in after.polls by {
        if step.TickRuns? || step.Initialized? || step.Prepared? || step.Claimed? || step.Drained? { OnlyInFlight(w, step.k); }
      }
    } else if !after.stopping {
      var p :| p in w.polls;
      assert p in after.polls;
    }
  }

  /** The loop polls, and the heart of a live claim beats, until stop. */
  lemma RunsUntilStopped(run: seq<Step>)
    requires Legal(START, run)
    ensures HeartAlive(Exec(START, run)) && LoopAlive(Exec(START, run))
  {
    assert 0 in START.ticks;
    NeverSilent(START, run);
  }
}

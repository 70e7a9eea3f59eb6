/** What every interleaving of the worker loop keeps. */
module WorkerLoopRuns {
  import opened Wrappers
  import opened WorkerLoop

  /** The session a tick works for, from its claim to the end of its draining. */
  predicate InSession(pc: Pc, s: nat) {
    (pc.FirstRenew? || pc.Executing? || pc.Draining?) && pc.session == s
  }

  predicate Serves(w: Loop, k: Id, s: nat) {
    k in w.ticks && InSession(w.ticks[k], s)
  }

  /** One tick or one poll timer, never both. */
  ghost predicate OneTick(w: Loop) {
    && (forall k :: k in w.ticks ==> k == w.inFlight && k < w.next)
    && (forall p :: p in w.polls ==> w.pollTimer == Some(p) && w.ticks == map[] && p < w.next)
    && w.inFlight < w.next
  }

  /** A pending renewal belongs to the claim that a tick serves, which knows it. */
  predicate RenewalOk(w: Loop, r: Id)
    requires r in w.renewals
  {
    && r < w.next && w.renewals[r].session < |w.sessions|
    && w.sessions[w.renewals[r].session].renewing == Some(r)
    && Serves(w, w.inFlight, w.renewals[r].session)
    && (w.ticks[w.inFlight].FirstRenew? || w.ticks[w.inFlight].Draining? ==> w.ticks[w.inFlight].awaits == Some(r))
  }

  /** An armed heartbeat is the one that `heartbeatTimer` names, of the claim being executed. */
  predicate BeatOk(w: Loop, b: Id)
    requires b in w.beats
  {
    && b < w.next && w.heartbeatTimer == Some(b) && w.beats[b] < |w.sessions|
    && w.inFlight in w.ticks && w.ticks[w.inFlight] == Executing(w.beats[b])
  }

  predicate SessionOk(w: Loop, s: nat)
    requires s < |w.sessions|
  {
    && (w.sessions[s].completed <==> !(Serves(w, w.inFlight, s) && !w.ticks[w.inFlight].Draining?))
    && (w.sessions[s].renewing.Some? ==> w.sessions[s].renewing.value in w.renewals && w.renewals[w.sessions[s].renewing.value].session == s)
    && (w.stopping && Serves(w, w.inFlight, s) ==> w.sessions[s].aborted)
  }

  predicate TickOk(w: Loop, k: Id)
    requires k in w.ticks
  {
    && (w.ticks[k].FirstRenew? || w.ticks[k].Executing? || w.ticks[k].Draining? ==>
          w.ticks[k].session < |w.sessions| && w.active == Some(w.ticks[k].session))
  }

  predicate RearmOk(w: Loop, a: Id)
    requires a in w.rearms
  {
    && a < w.next && w.rearms[a].session < |w.sessions|
    && !(w.inFlight in w.ticks && w.ticks[w.inFlight].FirstRenew? && w.ticks[w.inFlight].session == w.rearms[a].session)
  }

  /** One heartbeat chain per claim: an armed timer or one pending continuation. */
  ghost predicate OneChain(w: Loop) {
    && (forall a, b :: a in w.rearms && b in w.rearms && w.rearms[a].session == w.rearms[b].session ==> a == b)
    && (forall a, b :: a in w.rearms && b in w.beats ==> w.rearms[a].session != w.beats[b])
  }

  predicate StopOk(w: Loop) {
    && (w.stopping <==> w.stop != NotAsked)
    && (w.stop.WaitsFor? ==> w.stop.tick == w.inFlight)
    && (w.stop.Stopped? ==> w.ticks == map[])
    && (w.stopping ==> w.polls == {} && w.beats == map[])
  }

  ghost predicate Inv(w: Loop) {
    && OneTick(w) && OneChain(w) && StopOk(w)
    && (forall k :: k in w.ticks ==> TickOk(w, k))
    && (forall r :: r in w.renewals ==> RenewalOk(w, r))
    && (forall b :: b in w.beats ==> BeatOk(w, b))
    && (forall s :: 0 <= s < |w.sessions| ==> SessionOk(w, s))
    && (forall a :: a in w.rearms ==> RearmOk(w, a))
  }


  /** Outside a claim nothing of one is pending. */
  lemma IdleTick(w: Loop)
    requires Inv(w) && forall s :: !Serves(w, w.inFlight, s)
    ensures w.renewals == map[] && w.beats == map[]
    ensures forall s :: 0 <= s < |w.sessions| ==> w.sessions[s].completed && w.sessions[s].renewing == None
  {
    forall r ensures r !in w.renewals {}
    forall b ensures b !in w.beats {
      assert b in w.beats ==> BeatOk(w, b) && Serves(w, w.inFlight, w.beats[b]);
    }
    forall s | 0 <= s < |w.sessions| ensures w.sessions[s].completed && w.sessions[s].renewing == None {
      assert SessionOk(w, s);
    }
  }

  lemma EndTickKeeps(w: Loop, k: Id)
    requires Inv(w) && k in w.ticks && forall s :: !Serves(w, w.inFlight, s)
    ensures Inv(EndTick(w, k))
  {
    IdleTick(w);
    var after := EndTick(w, k);
    forall s | 0 <= s < |after.sessions| ensures SessionOk(after, s) {
      assert SessionOk(w, s);
    }
    forall a | a in after.rearms ensures RearmOk(after, a) {
      assert RearmOk(w, a);
    }
  }

  lemma GoOnKeeps(w: Loop, k: Id, pc: Pc)
    requires Inv(w) && k in w.ticks && forall s :: !Serves(w, w.inFlight, s)
    requires pc == Initializing || pc == Preparing || pc == Claiming
    ensures Inv(GoOn(w, k, pc))
  {
    if w.stopping {
      EndTickKeeps(w, k);
    } else {
      IdleTick(w);
      var after := GoOn(w, k, pc);
      forall s | 0 <= s < |after.sessions| ensures SessionOk(after, s) {
        assert SessionOk(w, s);
      }
      forall a | a in after.rearms ensures RearmOk(after, a) {
        assert RearmOk(w, a);
      }
    }
  }

  lemma InitializedKeeps(w: Loop)
    requires Inv(w)
    ensures Inv(w.(initialized := true))
  {
    var after := w.(initialized := true);
    forall s | 0 <= s < |after.sessions| ensures SessionOk(after, s) {
      assert SessionOk(w, s);
    }
    forall a | a in after.rearms ensures RearmOk(after, a) {
      assert RearmOk(w, a);
    }
  }

  lemma OnlyInFlight(w: Loop, k: Id)
    requires Inv(w) && k in w.ticks
    ensures k == w.inFlight
  {
  }

  lemma TickSteps(w: Loop, step: Step)
    requires Inv(w) && Enabled(w, step) && (step.TickRuns? || step.Initialized? || step.Prepared?)
    ensures Inv(Next(w, step))
  {
    hide Inv;
    OnlyInFlight(w, step.k);
    EndTickKeeps(w, step.k);
    match step
    case TickRuns(k) => GoOnKeeps(w, k, if w.initialized then Preparing else Initializing);
    case Initialized(k, _) =>
      InitializedKeeps(w);
      GoOnKeeps(w.(initialized := true), k, Preparing);
    case Prepared(k, _) => GoOnKeeps(w, k, Claiming);
  }

  lemma ClaimFoundKeeps(w: Loop, k: Id)
    requires Inv(w) && k in w.ticks && w.ticks[k] == Claiming && !w.stopping
    ensures Inv(ClaimFound(w, k))
  {
    OnlyInFlight(w, k);
    IdleTick(w);
    var after := ClaimFound(w, k);
    forall s | 0 <= s < |after.sessions| ensures SessionOk(after, s) {
      if s < |w.sessions| { assert SessionOk(w, s); }
    }
    forall a | a in after.rearms ensures RearmOk(after, a) {
      assert RearmOk(w, a);
    }
  }

  lemma ClaimedStep(w: Loop, step: Step)
    requires Inv(w) && Enabled(w, step) && step.Claimed?
    ensures Inv(Next(w, step))
  {
    hide Inv;
    OnlyInFlight(w, step.k);
    if step.found && !w.stopping { ClaimFoundKeeps(w, step.k); } else { EndTickKeeps(w, step.k); }
  }

  lemma DrainedStep(w: Loop, step: Step)
    requires Inv(w) && Enabled(w, step) && step.Drained?
    ensures Inv(Next(w, step))
  {
    forall r ensures r !in w.renewals {}
    forall b ensures b !in w.beats {}
    forall s | 0 <= s < |w.sessions| ensures w.sessions[s].renewing == None {
      assert SessionOk(w, s);
    }
    var after := Next(w, step);
    forall s | 0 <= s < |after.sessions| ensures SessionOk(after, s) {
      if s < |w.sessions| { assert SessionOk(w, s); }
    }
    forall a | a in after.rearms ensures RearmOk(after, a) {
      if a in w.rearms { assert RearmOk(w, a); }
    }
  }

  lemma PollStep(w: Loop, step: Step)
    requires Inv(w) && Enabled(w, step) && step.PollFires?
    ensures Inv(Next(w, step))
  {
    IdleTick(w);
    var after := Next(w, step);
    forall s | 0 <= s < |after.sessions| ensures SessionOk(after, s) {
      if s < |w.sessions| { assert SessionOk(w, s); }
    }
    forall a | a in after.rearms ensures RearmOk(after, a) {
      if a in w.rearms { assert RearmOk(w, a); }
    }
  }

  lemma NoBeatLeft(w: Loop)
    requires Inv(w)
    ensures ClearHeartbeat(w).beats == map[]
  {
    forall b ensures b !in ClearHeartbeat(w).beats {
      assert b in w.beats ==> BeatOk(w, b);
    }
  }

  lemma FinishKeeps(w: Loop, k: Id, s: nat)
    requires Inv(w) && s < |w.sessions| && k in w.ticks
    requires w.ticks[k] == Executing(s) || (w.ticks[k].FirstRenew? && w.ticks[k].session == s && Over(w, w.ticks[k].awaits))
    ensures Inv(Finish(w, k, s))
  {
    NoBeatLeft(w);
    assert SessionOk(w, s) && TickOk(w, k);
    var after := Finish(w, k, s);
    assert after.beats == map[] && StopOk(after) && OneTick(after) && OneChain(after);
    hide StopOk, OneTick, OneChain;
    forall s | 0 <= s < |after.sessions| ensures SessionOk(after, s) { assert SessionOk(w, s); }
    forall k | k in after.ticks ensures TickOk(after, k) { assert TickOk(w, k); }
    forall r | r in after.renewals ensures RenewalOk(after, r) { assert RenewalOk(w, r); }
    forall a | a in after.rearms ensures RearmOk(after, a) { assert RearmOk(w, a); }
  }

  lemma ExecutingKeeps(w: Loop, k: Id, s: nat)
    requires Inv(w) && k in w.ticks && w.ticks[k].FirstRenew? && w.ticks[k].session == s && Over(w, w.ticks[k].awaits)
    ensures Inv(w.(ticks := w.ticks[k := Executing(s)])) && s < |w.sessions| && w.beats == map[] && w.renewals == map[]
    ensures forall i :: i in w.rearms ==> w.rearms[i].session != s
  {
    assert TickOk(w, k);
    forall r ensures r !in w.renewals {}
    forall b ensures b !in w.beats {}
    var after := w.(ticks := w.ticks[k := Executing(s)]);
    forall s | 0 <= s < |after.sessions| ensures SessionOk(after, s) {
      assert SessionOk(w, s);
    }
    forall a | a in after.rearms ensures RearmOk(after, a) {
      assert RearmOk(w, a);
    }
  }

  lemma ArmKeeps(w: Loop, s: nat)
    requires Inv(w) && s < |w.sessions| && forall i :: i in w.rearms ==> w.rearms[i].session != s
    requires !w.sessions[s].completed ==> w.beats == map[] && w.inFlight in w.ticks && w.ticks[w.inFlight] == Executing(s)
    ensures Inv(ScheduleHeartbeat(w, s))
  {
    var after := ScheduleHeartbeat(w, s);
    forall s | 0 <= s < |after.sessions| ensures SessionOk(after, s) {
      assert SessionOk(w, s);
    }
    forall a | a in after.rearms ensures RearmOk(after, a) {
      assert RearmOk(w, a);
    }
  }

  lemma FirstRenewedStep(w: Loop, step: Step)
    requires Inv(w) && Enabled(w, step) && step.FirstRenewed?
    ensures Inv(Next(w, step))
  {
    var (k, s) := (step.k, w.ticks[step.k].session);
    if w.stopping || w.sessions[s].aborted {
      FinishKeeps(w, k, s);
    } else {
      ExecutingKeeps(w, k, s);
      assert k == w.inFlight;
      ArmKeeps(w.(ticks := w.ticks[k := Executing(s)]), s);
      hide Inv;
      assert Next(w, step) == ScheduleHeartbeat(w.(ticks := w.ticks[k := Executing(s)]), s);
    }
  }

  lemma RenewKeeps(w: Loop, s: nat)
    requires Inv(w) && s < |w.sessions| && w.inFlight in w.ticks && w.ticks[w.inFlight] == Executing(s)
    ensures Inv(Renew(w, s).0) && Renew(w, s).0.ticks == w.ticks
    ensures Renew(w, s).1.Some? ==> Renew(w, s).1.value in Renew(w, s).0.renewals
  {
    assert SessionOk(w, s);
    var after := Renew(w, s).0;
    forall i | 0 <= i < |after.sessions| ensures SessionOk(after, i) {
      assert SessionOk(w, i);
    }
    forall a | a in after.rearms ensures RearmOk(after, a) {
      assert RearmOk(w, a);
    }
  }

  lemma ExecuteRenewsStep(w: Loop, step: Step)
    requires Inv(w) && Enabled(w, step) && step.ExecuteRenews?
    ensures Inv(Next(w, step))
  {
    RenewKeeps(w, w.ticks[step.k].session);
  }

  lemma BeatFired(w: Loop, b: Id)
    requires Inv(w) && b in w.beats
    ensures Inv(w.(beats := w.beats - {b}, heartbeatTimer := None))
  {
    var after := w.(beats := w.beats - {b}, heartbeatTimer := None);
    forall s | 0 <= s < |after.sessions| ensures SessionOk(after, s) {
      assert SessionOk(w, s);
    }
    forall a | a in after.rearms ensures RearmOk(after, a) {
      assert RearmOk(w, a);
    }
    assert BeatOk(w, b);
    forall other ensures other !in after.beats {
      assert other in w.beats ==> BeatOk(w, other);
    }
  }

  lemma RearmAdded(w: Loop, a: Id, rearm: Rearm)
    requires Inv(w) && a == w.next && w.beats == map[] && rearm.session < |w.sessions|
    requires w.inFlight in w.ticks && w.ticks[w.inFlight] == Executing(rearm.session)
    requires forall i :: i in w.rearms ==> w.rearms[i].session != rearm.session
    ensures Inv(w.(rearms := w.rearms[a := rearm], next := w.next + 1))
  {
    var after := w.(rearms := w.rearms[a := rearm], next := w.next + 1);
    forall s | 0 <= s < |after.sessions| ensures SessionOk(after, s) {
      assert SessionOk(w, s);
    }
    forall i | i in after.rearms ensures RearmOk(after, i) {
      if i != a { assert RearmOk(w, i); }
    }
  }

  lemma BeatIsTheOnly(w: Loop, b: Id)
    requires Inv(w) && b in w.beats
    ensures w.beats[b] < |w.sessions| && w.inFlight in w.ticks && w.ticks[w.inFlight] == Executing(w.beats[b])
    ensures w.beats - {b} == map[] && forall i :: i in w.rearms ==> w.rearms[i].session != w.beats[b]
  {
    assert BeatOk(w, b);
    forall other ensures other !in w.beats - {b} {
      assert other in w.beats ==> BeatOk(w, other);
    }
  }

  lemma BeatStep(w: Loop, step: Step)
    requires Inv(w) && Enabled(w, step) && step.BeatFires?
    ensures Inv(Next(w, step))
  {
    hide Inv;
    BeatIsTheOnly(w, step.b);
    BeatFired(w, step.b);
    var (fired, s) := (w.(beats := w.beats - {step.b}, heartbeatTimer := None), w.beats[step.b]);
    RenewKeeps(fired, s);
    var (renewed, awaits) := Renew(fired, s);
    RearmAdded(renewed, renewed.next, Rearm(s, awaits));
  }

  lemma ExecutedStep(w: Loop, step: Step)
    requires Inv(w) && Enabled(w, step) && step.Executed?
    ensures Inv(Next(w, step))
  {
    FinishKeeps(w, step.k, w.ticks[step.k].session);
  }

  lemma RenewCallsStep(w: Loop, r: Id)
    requires Inv(w) && Enabled(w, RenewCalls(r))
    ensures Inv(Next(w, RenewCalls(r)))
  {
    assert RenewalOk(w, r);
    var after := Next(w, RenewCalls(r));
    forall s | 0 <= s < |after.sessions| ensures SessionOk(after, s) {
      assert SessionOk(w, s);
    }
    forall a | a in after.rearms ensures RearmOk(after, a) {
      assert RearmOk(w, a);
    }
  }

  lemma SettledKeeps(w: Loop, r: Id)
    requires Inv(w) && r in w.renewals
    ensures Inv(w.(renewals := w.renewals[r := w.renewals[r].(stage := Settled)]))
  {
    assert RenewalOk(w, r);
    var after := w.(renewals := w.renewals[r := w.renewals[r].(stage := Settled)]);
    forall s | 0 <= s < |after.sessions| ensures SessionOk(after, s) {
      assert SessionOk(w, s);
    }
    forall a | a in after.rearms ensures RearmOk(after, a) {
      assert RearmOk(w, a);
    }
  }

  lemma AbortingKeeps(w: Loop, s: nat)
    requires Inv(w) && s < |w.sessions|
    ensures Inv(Aborting(w, s))
  {
    var after := Aborting(w, s);
    forall s | 0 <= s < |after.sessions| ensures SessionOk(after, s) {
      assert SessionOk(w, s);
    }
    forall a | a in after.rearms ensures RearmOk(after, a) {
      assert RearmOk(w, a);
    }
  }

  lemma RenewSettlesStep(w: Loop, r: Id, ok: bool)
    requires Inv(w) && Enabled(w, RenewSettles(r, ok))
    ensures Inv(Next(w, RenewSettles(r, ok)))
  {
    SettledKeeps(w, r);
    AbortingKeeps(w.(renewals := w.renewals[r := w.renewals[r].(stage := Settled)]), w.renewals[r].session);
    hide Inv;
  }

  lemma RenewEndsStep(w: Loop, r: Id)
    requires Inv(w) && Enabled(w, RenewEnds(r))
    ensures Inv(Next(w, RenewEnds(r)))
  {
    assert RenewalOk(w, r);
    var after := Next(w, RenewEnds(r));
    forall s | 0 <= s < |after.sessions| ensures SessionOk(after, s) {
      assert SessionOk(w, s);
    }
    forall a | a in after.rearms ensures RearmOk(after, a) {
      assert RearmOk(w, a);
    }
  }

  lemma RearmTaken(w: Loop, a: Id)
    requires Inv(w) && a in w.rearms
    ensures Inv(w.(rearms := w.rearms - {a}))
  {
    var after := w.(rearms := w.rearms - {a});
    forall s | 0 <= s < |after.sessions| ensures SessionOk(after, s) {
      assert SessionOk(w, s);
    }
    forall i | i in after.rearms ensures RearmOk(after, i) {
      assert RearmOk(w, i);
    }
  }

  lemma RearmStep(w: Loop, step: Step)
    requires Inv(w) && Enabled(w, step) && step.Rearms?
    ensures Inv(Next(w, step))
  {
    var (a, s) := (step.a, w.rearms[step.a].session);
    assert RearmOk(w, a) && SessionOk(w, s);
    RearmTaken(w, a);
    if !w.sessions[s].completed {
      assert w.inFlight in w.ticks && w.ticks[w.inFlight] == Executing(s);
      forall b ensures b !in w.beats {
        assert b in w.beats ==> BeatOk(w, b);
      }
    }
    ArmKeeps(w.(rearms := w.rearms - {a}), s);
  }

  lemma HaltIs(w: Loop)
    requires Inv(w) && w.stop == NotAsked
    ensures Halt(w) == w.(stopping := true, stop := WaitsFor(w.inFlight), polls := {}, beats := map[])
  {
    NoBeatLeft(w);
    forall p ensures p !in Halt(w).polls {}
    assert Halt(w).polls == {} && Halt(w).beats == map[];
  }

  lemma HaltKeeps(w: Loop)
    requires Inv(w) && w.stop == NotAsked
    requires forall s :: 0 <= s < |w.sessions| && Serves(w, w.inFlight, s) ==> w.sessions[s].aborted
    ensures Inv(Halt(w))
  {
    HaltIs(w);
    hide Halt;
    var after := w.(stopping := true, stop := WaitsFor(w.inFlight), polls := {}, beats := map[]);
    assert StopOk(after) && OneTick(after) && OneChain(after);
    hide StopOk, OneTick, OneChain;
    forall s | 0 <= s < |after.sessions| ensures SessionOk(after, s) { assert SessionOk(w, s); }
    forall k | k in after.ticks ensures TickOk(after, k) { assert TickOk(w, k); }
    forall r | r in after.renewals ensures RenewalOk(after, r) { assert RenewalOk(w, r); }
    forall a | a in after.rearms ensures RearmOk(after, a) { assert RearmOk(w, a); }
  }

  lemma ServedIsActive(w: Loop, s: nat)
    requires Inv(w) && Serves(w, w.inFlight, s)
    ensures s < |w.sessions| && w.active == Some(s)
  {
    assert TickOk(w, w.inFlight);
  }

  lemma StopAskedStep(w: Loop)
    requires Inv(w) && w.stop == NotAsked
    ensures Inv(AskStop(w))
  {
    hide Inv, Halt;
    forall s: nat | Serves(w, w.inFlight, s) ensures s < |w.sessions| && w.active == Some(s) {
      ServedIsActive(w, s);
    }
    if w.active.Some? && w.active.value < |w.sessions| {
      AbortingKeeps(w, w.active.value);
      var aborted := Aborting(w, w.active.value);
      forall s: nat | s < |aborted.sessions| && Serves(aborted, aborted.inFlight, s) ensures aborted.sessions[s].aborted {
        assert Serves(w, w.inFlight, s);
      }
      HaltKeeps(aborted);
    } else {
      HaltKeeps(w);
    }
  }

  lemma StopAskedKeeps(w: Loop)
    requires Inv(w)
    ensures Inv(Next(w, StopAsked))
  {
    hide Inv;
    if w.stop == NotAsked { StopAskedStep(w); }
  }

  lemma StoppingMeans(w: Loop)
    requires Inv(w) && w.stopping
    ensures w.polls == {} && w.beats == map[] && w.stop != NotAsked
  {
  }

  lemma StepKeeps(w: Loop, step: Step)
    requires Inv(w) && Enabled(w, step)
    ensures Inv(Next(w, step))
  {
    hide Inv, Next;
    match step
    case TickRuns(_) => TickSteps(w, step);
    case Initialized(_, _) => TickSteps(w, step);
    case Prepared(_, _) => TickSteps(w, step);
    case Claimed(_, _) => ClaimedStep(w, step);
    case FirstRenewed(_) => FirstRenewedStep(w, step);
    case ExecuteRenews(_) => ExecuteRenewsStep(w, step);
    case Executed(_) => ExecutedStep(w, step);
    case Drained(_) => DrainedStep(w, step);
    case RenewCalls(r) => RenewCallsStep(w, r);
    case RenewSettles(r, ok) => RenewSettlesStep(w, r, ok);
    case RenewEnds(r) => RenewEndsStep(w, r);
    case BeatFires(_) => BeatStep(w, step);
    case Rearms(_) => RearmStep(w, step);
    case PollFires(_) => PollStep(w, step);
    case StopAsked => StopAskedKeeps(w);
    case StopResolves => StopResolvesStep(w);
  }

  lemma StopResolvesStep(w: Loop)
    requires Inv(w) && Enabled(w, StopResolves)
    ensures Inv(Next(w, StopResolves))
  {
    forall k ensures k !in w.ticks {}
    var after := Next(w, StopResolves);
    forall s | 0 <= s < |after.sessions| ensures SessionOk(after, s) {
      assert SessionOk(w, s);
    }
    forall a | a in after.rearms ensures RearmOk(after, a) {
      assert RearmOk(w, a);
    }
  }
}

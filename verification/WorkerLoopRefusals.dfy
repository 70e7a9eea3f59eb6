/** A renewal that is refused, or fails, is the end of its claim. */
module WorkerLoopRefusals {
  import opened WorkerLoop
  import opened WorkerLoopRuns
  import opened WorkerLoopSafety
  import opened Wrappers

  predicate Beats(w: Loop, b: Id, s: nat) {
    b in w.beats && w.beats[b] == s
  }

  predicate Renews(w: Loop, r: Id, s: nat) {
    r in w.renewals && w.renewals[r].session == s
  }

  predicate Aborted(w: Loop, s: nat) {
    s < |w.sessions| && w.sessions[s].aborted
  }

  /** Since the moment `from` nothing has been begun for session s, which is aborted: whatever
      heartbeat or renewal of it is left was there before. */
  ghost predicate Broken(from: Loop, w: Loop, s: nat) {
    && Aborted(w, s)
    && (forall b :: Beats(w, b, s) ==> Beats(from, b, s))
    && (forall r :: Renews(w, r, s) ==> Renews(from, r, s))
  }

  /** Nothing is begun for an aborted session. */
  ghost predicate Calm(w: Loop, after: Loop, s: nat) {
    Aborted(w, s) ==> Broken(w, after, s)
  }

  lemma CalmTrans(w: Loop, between: Loop, after: Loop, s: nat)
    requires Calm(w, between, s) && Calm(between, after, s)
    ensures Calm(w, after, s)
  {
  }

  /** A closure that touches neither timers, renewals nor sessions. */
  lemma CalmByFields(w: Loop, after: Loop, s: nat)
    requires after.beats.Keys <= w.beats.Keys && forall b :: b in after.beats ==> after.beats[b] == w.beats[b]
    requires after.renewals.Keys <= w.renewals.Keys && forall r :: r in after.renewals ==> after.renewals[r].session == w.renewals[r].session
    requires |w.sessions| <= |after.sessions| && forall i :: 0 <= i < |w.sessions| && w.sessions[i].aborted ==> after.sessions[i].aborted
    ensures Calm(w, after, s)
  {
  }

  lemma RenewIsCalm(w: Loop, s: nat, other: nat)
    requires other < |w.sessions|
    ensures Calm(w, Renew(w, other).0, s)
  {
  }

  lemma ArmingIsCalm(w: Loop, s: nat, other: nat)
    requires other < |w.sessions|
    ensures Calm(w, ScheduleHeartbeat(w, other), s)
  {
  }

  lemma EndTickIsCalm(w: Loop, s: nat, k: Id)
    ensures Calm(w, EndTick(w, k), s)
  {
    CalmByFields(w, EndTick(w, k), s);
    hide Calm;
  }

  lemma GoOnIsCalm(w: Loop, s: nat, k: Id, pc: Pc)
    ensures Calm(w, GoOn(w, k, pc), s)
  {
    EndTickIsCalm(w, s, k);
    CalmByFields(w, w.(ticks := w.ticks[k := pc]), s);
    hide Calm, EndTick;
  }

  lemma FinishIsCalm(w: Loop, s: nat, k: Id, other: nat)
    requires other < |w.sessions|
    ensures Calm(w, Finish(w, k, other), s)
  {
    CalmByFields(w, Finish(w, k, other), s);
    hide Calm;
  }

  lemma ClaimIsCalm(w: Loop, s: nat, k: Id)
    ensures Calm(w, ClaimFound(w, k), s)
  {
    var next := |w.sessions|;
    var begun := w.(sessions := w.sessions + [Session(false, false, None)], active := Some(next));
    CalmByFields(w, begun, s);
    RenewIsCalm(begun, s, next);
    var renewed := Renew(begun, next).0;
    CalmByFields(renewed, ClaimFound(w, k), s);
    hide Calm, Renew;
    CalmTrans(w, begun, renewed, s);
    CalmTrans(w, renewed, ClaimFound(w, k), s);
  }

  lemma StopIsCalm(w: Loop, s: nat)
    ensures Calm(w, AskStop(w), s)
  {
    CalmByFields(w, AskStop(w), s);
    hide Calm;
  }

  lemma FirstIsCalm(w: Loop, s: nat, k: Id)
    requires Enabled(w, FirstRenewed(k))
    ensures Calm(w, Next(w, FirstRenewed(k)), s)
  {
    var other := w.ticks[k].session;
    ArmingIsCalm(w, s, other);
    FinishIsCalm(w, s, k, other);
    var armed := ScheduleHeartbeat(w, other);
    CalmByFields(armed, armed.(ticks := w.ticks[k := Executing(other)]), s);
    hide Calm, ScheduleHeartbeat, Finish;
    CalmTrans(w, armed, armed.(ticks := w.ticks[k := Executing(other)]), s);
  }

  lemma BeatIsCalm(w: Loop, s: nat, b: Id)
    requires Enabled(w, BeatFires(b))
    ensures Calm(w, Next(w, BeatFires(b)), s)
  {
    var fired := w.(beats := w.beats - {b}, heartbeatTimer := None);
    CalmByFields(w, fired, s);
    RenewIsCalm(fired, s, w.beats[b]);
    var (renewed, awaits) := Renew(fired, w.beats[b]);
    var after := renewed.(rearms := renewed.rearms[renewed.next := Rearm(w.beats[b], awaits)], next := renewed.next + 1);
    CalmByFields(renewed, after, s);
    hide Calm, Renew;
    CalmTrans(w, fired, renewed, s);
    CalmTrans(w, renewed, after, s);
  }

  lemma RearmIsCalm(w: Loop, s: nat, a: Id)
    requires Enabled(w, Rearms(a))
    ensures Calm(w, Next(w, Rearms(a)), s)
  {
    var rearmed := w.(rearms := w.rearms - {a});
    CalmByFields(w, rearmed, s);
    ArmingIsCalm(rearmed, s, w.rearms[a].session);
    hide Calm, ScheduleHeartbeat;
    CalmTrans(w, rearmed, Next(w, Rearms(a)), s);
  }

  lemma SettlingIsCalm(w: Loop, s: nat, r: Id, ok: bool)
    requires Enabled(w, RenewSettles(r, ok))
    ensures Calm(w, Next(w, RenewSettles(r, ok)), s)
  {
    CalmByFields(w, Next(w, RenewSettles(r, ok)), s);
    hide Calm;
  }

  lemma PendingIsCalm(w: Loop, s: nat, step: Step)
    requires Enabled(w, step) && (step.RenewCalls? || step.RenewEnds? || step.PollFires? || step.StopResolves?)
    ensures Calm(w, Next(w, step), s)
  {
    CalmByFields(w, Next(w, step), s);
    hide Calm;
  }

  lemma InitializedIsCalm(w: Loop, s: nat, k: Id, ok: bool)
    requires Enabled(w, Initialized(k, ok))
    ensures Calm(w, Next(w, Initialized(k, ok)), s)
  {
    var begun := w.(initialized := true);
    CalmByFields(w, begun, s);
    GoOnIsCalm(begun, s, k, Preparing);
    EndTickIsCalm(w, s, k);
    hide Calm, GoOn, EndTick;
    CalmTrans(w, begun, GoOn(begun, k, Preparing), s);
  }

  lemma DrainedIsCalm(w: Loop, s: nat, k: Id)
    requires Enabled(w, Drained(k))
    ensures Calm(w, Next(w, Drained(k)), s)
  {
    var idle := w.(active := None);
    CalmByFields(w, idle, s);
    EndTickIsCalm(idle, s, k);
    hide Calm, EndTick;
    CalmTrans(w, idle, EndTick(idle, k), s);
  }

  lemma StepIsCalm(w: Loop, s: nat, step: Step)
    requires Enabled(w, step)
    ensures Calm(w, Next(w, step), s)
  {
    hide Calm, Renew, ScheduleHeartbeat, EndTick, GoOn, ClaimFound, Finish, AskStop, Aborting;
    match step
    case TickRuns(k) => GoOnIsCalm(w, s, k, if w.initialized then Preparing else Initializing);
    case Initialized(k, ok) => InitializedIsCalm(w, s, k, ok);
    case Prepared(k, _) =>
      GoOnIsCalm(w, s, k, Claiming);
      EndTickIsCalm(w, s, k);
    case Claimed(k, _) =>
      ClaimIsCalm(w, s, k);
      EndTickIsCalm(w, s, k);
    case FirstRenewed(k) => FirstIsCalm(w, s, k);
    case ExecuteRenews(k) => RenewIsCalm(w, s, w.ticks[k].session);
    case Executed(k) => FinishIsCalm(w, s, k, w.ticks[k].session);
    case Drained(k) => DrainedIsCalm(w, s, k);
    case RenewSettles(r, ok) => SettlingIsCalm(w, s, r, ok);
    case BeatFires(b) => BeatIsCalm(w, s, b);
    case Rearms(a) => RearmIsCalm(w, s, a);
    case StopAsked => StopIsCalm(w, s);
    case _ => PendingIsCalm(w, s, step);
  }

  lemma BrokenStays(from: Loop, w: Loop, s: nat, step: Step)
    requires Broken(from, w, s) && Enabled(w, step)
    ensures Broken(from, Next(w, step), s)
  {
    hide Next, Enabled, Beats, Renews, Aborted;
    StepIsCalm(w, s, step);
  }

  // ---------- no execution begins for a broken session ----------

  ghost predicate NotExecuting(w: Loop, s: nat) {
    forall k :: !Executes(w, k, s)
  }

  lemma NoExecutionBegins(w: Loop, s: nat, step: Step)
    requires Inv(w) && s < |w.sessions| && w.sessions[s].aborted && NotExecuting(w, s) && Enabled(w, step)
    ensures NotExecuting(Next(w, step), s)
  {
    hide Inv, Next, Enabled;
    forall k ensures !Executes(Next(w, step), k, s) {
      if Executes(Next(w, step), k, s) {
        if step == FirstRenewed(k) {
          FirstExecutes(w, k, s);
        } else if OfTick(step) {
          OthersLeaveTicks(w, step, k, s);
        } else {
          EventsLeaveTicks(w, step, k, s);
        }
      }
    }
  }

  // ---------- main result ----------

  lemma {:induction false} BrokenForGood(from: Loop, w: Loop, s: nat, rest: seq<Step>)
    requires Inv(w) && Broken(from, w, s) && Legal(w, rest)
    ensures Broken(from, Exec(w, rest), s)
    ensures NotExecuting(w, s) ==> NotExecuting(Exec(w, rest), s)
    decreases |rest|
  {
    hide Inv, Next, Enabled, NotExecuting;
    if rest != [] {
      StepKeeps(w, rest[0]);
      BrokenStays(from, w, s, rest[0]);
      if NotExecuting(w, s) { NoExecutionBegins(w, s, rest[0]); }
      BrokenForGood(from, Next(w, rest[0]), s, rest[1..]);
    }
  }

  lemma RefusalBreaks(w: Loop, r: Id)
    requires Inv(w) && Enabled(w, RenewSettles(r, false))
    ensures Broken(w, Next(w, RenewSettles(r, false)), w.renewals[r].session)
    ensures forall k, s: nat :: Executes(Next(w, RenewSettles(r, false)), k, s) ==> Executes(w, k, s)
    ensures forall q :: Renews(w, q, w.renewals[r].session) ==> q == r
  {
    assert RenewalOk(w, r);
    forall q | Renews(w, q, w.renewals[r].session) ensures q == r { assert RenewalOk(w, q); }
    hide Inv;
  }

  /** Once a renewal of a claim is refused or fails, the claim is aborted for good: no renewal
      of it is begun any more and no heartbeat armed, so that only a timer already armed may
      still fire. If it was the first renewal, the claim is never executed. */
  lemma RefusedForGood(run: seq<Step>, r: Id, rest: seq<Step>)
    requires Legal(START, run) && Enabled(Exec(START, run), RenewSettles(r, false))
    requires Legal(Next(Exec(START, run), RenewSettles(r, false)), rest)
    ensures var (w, after) := (Exec(START, run), Exec(Next(Exec(START, run), RenewSettles(r, false)), rest));
      var s := w.renewals[r].session;
      && s < |after.sessions| && after.sessions[s].aborted
      && (forall q :: Renews(after, q, s) ==> q == r)
      && (forall b :: Beats(after, b, s) ==> Beats(w, b, s))
      && ((exists k :: k in w.ticks && w.ticks[k].FirstRenew? && w.ticks[k].session == s) ==> NotExecuting(after, s))
  {
    Keeps(START, run);
    var w := Exec(START, run);
    var (s, next) := (w.renewals[r].session, Next(w, RenewSettles(r, false)));
    if k :| k in w.ticks && w.ticks[k].FirstRenew? && w.ticks[k].session == s {
      OneTickOnly(w, k, s);
    }
    hide Inv, Next, Enabled, Legal, Exec;
    StepKeeps(w, RenewSettles(r, false));
    RefusalBreaks(w, r);
    BrokenForGood(w, next, s, rest);
  }

  lemma OneTickOnly(w: Loop, k: Id, s: nat)
    requires Inv(w) && k in w.ticks && w.ticks[k].FirstRenew?
    ensures NotExecuting(w, s)
  {
    forall m ensures !Executes(w, m, s) {
      if m in w.ticks {
        OnlyInFlight(w, m);
        OnlyInFlight(w, k);
      }
    }
  }

  // ---------- initialisation and claims ----------

  lemma TicksKeepSessions(w: Loop, k: Id, pc: Pc)
    ensures |EndTick(w, k).sessions| == |w.sessions| && |GoOn(w, k, pc).sessions| == |w.sessions|
  {
  }

  lemma SessionsStay(w: Loop, k: Id, s: nat)
    requires s < |w.sessions|
    ensures |Finish(w, k, s).sessions| == |w.sessions| && |Renew(w, s).0.sessions| == |w.sessions| && |ScheduleHeartbeat(w, s).sessions| == |w.sessions|
  {
  }

  lemma ClaimOpensSession(w: Loop, k: Id)
    ensures |ClaimFound(w, k).sessions| == |w.sessions| + 1
  {
  }

  lemma StopKeepsSessions(w: Loop)
    ensures |AskStop(w).sessions| == |w.sessions|
  {
  }

  /** Each claim that is found while the worker runs gets a session of its own, and nothing
      else does. */
  lemma SessionsAreClaims(w: Loop, step: Step)
    requires Enabled(w, step)
    ensures |Next(w, step).sessions| == |w.sessions| + if step.Claimed? && step.found && !w.stopping then 1 else 0
  {
    hide Renew, ScheduleHeartbeat, EndTick, GoOn, ClaimFound, Finish, AskStop;
    match step
    case TickRuns(k) => TicksKeepSessions(w, k, if w.initialized then Preparing else Initializing);
    case Initialized(k, ok) => TicksKeepSessions(if ok then w.(initialized := true) else w, k, Preparing);
    case Prepared(k, _) => TicksKeepSessions(w, k, Claiming);
    case Claimed(k, _) =>
      TicksKeepSessions(w, k, Claiming);
      ClaimOpensSession(w, k);
    case FirstRenewed(k) => SessionsStay(w, k, w.ticks[k].session);
    case ExecuteRenews(k) => SessionsStay(w, k, w.ticks[k].session);
    case Executed(k) => SessionsStay(w, k, w.ticks[k].session);
    case Drained(k) => TicksKeepSessions(w.(active := None), k, Claiming);
    case BeatFires(b) => SessionsStay(w.(beats := w.beats - {b}, heartbeatTimer := None), 0, w.beats[b]);
    case Rearms(a) => SessionsStay(w.(rearms := w.rearms - {a}), 0, w.rearms[a].session);
    case StopAsked => StopKeepsSessions(w);
    case _ =>
  }
}

/** The lifecycle of a native worker: ticks, heartbeats, shared renewals and stop, as the event
    loop interleaves them. Collections, not flags, hold whatever the event loop has pending,
    so that "at most one" is something to prove. */
module WorkerLoop {
  import opened Wrappers

  type Id = nat

  /** Where a tick waits. A renewal awaited is pending while it is still in `renewals`. */
  datatype Pc =
    | Begin
    | Initializing
    | Preparing
    | Claiming
    | FirstRenew(session: nat, awaits: Option<Id>)
    | Executing(session: nat)
    | Draining(session: nat, awaits: Option<Id>)

  /** The closure state of one claim. */
  datatype Session = Session(aborted: bool, completed: bool, renewing: Option<Id>)

  datatype Stage = Waiting | Calling | Settled

  datatype Renewal = Renewal(session: nat, stage: Stage)

  /** A continuation that re-arms the heartbeat when the renewal it awaits is over. */
  datatype Rearm = Rearm(session: nat, awaits: Option<Id>)

  datatype Stop = NotAsked | WaitsFor(tick: Id) | Stopped

  datatype Loop = Loop(
    stopping: bool,
    initialized: bool,
    ticks: map<Id, Pc>,
    inFlight: Id,
    polls: set<Id>,
    pollTimer: Option<Id>,
    beats: map<Id, nat>,
    heartbeatTimer: Option<Id>,
    sessions: seq<Session>,
    active: Option<nat>,
    renewals: map<Id, Renewal>,
    rearms: map<Id, Rearm>,
    stop: Stop,
    next: Id)

  const START := Loop(false, false, map[0 := Begin], 0, {}, None, map[], None, [], None, map[], map[], NotAsked, 1)

  // ---------- the closures ----------

  function Aborting(w: Loop, s: nat): Loop
    requires s < |w.sessions|
  {
    w.(sessions := w.sessions[s := w.sessions[s].(aborted := true)])
  }

  /** renew(): the pending renewal if there is one, nothing when stopping or aborted, else a new
      one. Gives what the caller awaits; None is already resolved. */
  function Renew(w: Loop, s: nat): (Loop, Option<Id>)
    requires s < |w.sessions|
  {
    if w.sessions[s].renewing.Some? then (w, w.sessions[s].renewing)
    else if w.stopping || w.sessions[s].aborted then (w, None)
    else
      (w.(sessions := w.sessions[s := w.sessions[s].(renewing := Some(w.next))],
          renewals := w.renewals[w.next := Renewal(s, Waiting)], next := w.next + 1), Some(w.next))
  }

  function ScheduleHeartbeat(w: Loop, s: nat): Loop
    requires s < |w.sessions|
  {
    if w.sessions[s].completed || w.stopping || w.sessions[s].aborted then w
    else w.(beats := w.beats[w.next := s], heartbeatTimer := Some(w.next), next := w.next + 1)
  }

  function ClearHeartbeat(w: Loop): Loop {
    if w.heartbeatTimer.Some? then w.(beats := w.beats - {w.heartbeatTimer.value}) else w
  }

  /** The outer finally of tick. */
  function EndTick(w: Loop, k: Id): Loop {
    var over := w.(ticks := w.ticks - {k});
    if w.stopping then over else over.(polls := w.polls + {w.next}, pollTimer := Some(w.next), next := w.next + 1)
  }

  /** The inner finally, up to its await. */
  function Finish(w: Loop, k: Id, s: nat): Loop
    requires s < |w.sessions|
  {
    var cleared := ClearHeartbeat(w);
    cleared.(sessions := w.sessions[s := w.sessions[s].(completed := true)], heartbeatTimer := None,
             ticks := w.ticks[k := Draining(s, w.sessions[s].renewing)])
  }

  function GoOn(w: Loop, k: Id, pc: Pc): Loop {
    if w.stopping then EndTick(w, k) else w.(ticks := w.ticks[k := pc])
  }

  // ---------- steps of the event loop ----------

  datatype Step =
    | TickRuns(k: Id)
    | Initialized(k: Id, ok: bool)
    | Prepared(k: Id, ok: bool)
    | Claimed(k: Id, found: bool)
    | FirstRenewed(k: Id)
    | ExecuteRenews(k: Id)
    | Executed(k: Id)
    | Drained(k: Id)
    | RenewCalls(r: Id)
    | RenewSettles(r: Id, ok: bool)
    | RenewEnds(r: Id)
    | BeatFires(b: Id)
    | Rearms(a: Id)
    | PollFires(p: Id)
    | StopAsked
    | StopResolves

  predicate Over(w: Loop, awaits: Option<Id>) {
    awaits.None? || awaits.value !in w.renewals
  }

  predicate Stands(w: Loop, k: Id, s: nat) {
    k in w.ticks && s < |w.sessions|
  }

  predicate Enabled(w: Loop, step: Step) {
    match step
    case TickRuns(k) => k in w.ticks && w.ticks[k] == Begin
    case Initialized(k, _) => k in w.ticks && w.ticks[k] == Initializing
    case Prepared(k, _) => k in w.ticks && w.ticks[k] == Preparing
    case Claimed(k, _) => k in w.ticks && w.ticks[k] == Claiming
    case FirstRenewed(k) => k in w.ticks && w.ticks[k].FirstRenew? && w.ticks[k].session < |w.sessions| && Over(w, w.ticks[k].awaits)
    case ExecuteRenews(k) => k in w.ticks && w.ticks[k].Executing? && w.ticks[k].session < |w.sessions|
    case Executed(k) => k in w.ticks && w.ticks[k].Executing? && w.ticks[k].session < |w.sessions|
    case Drained(k) => k in w.ticks && w.ticks[k].Draining? && Over(w, w.ticks[k].awaits)
    case RenewCalls(r) => r in w.renewals && w.renewals[r].stage == Waiting
    case RenewSettles(r, _) => r in w.renewals && w.renewals[r].stage == Calling && w.renewals[r].session < |w.sessions|
    case RenewEnds(r) => r in w.renewals && w.renewals[r].stage == Settled && w.renewals[r].session < |w.sessions|
    case BeatFires(b) => b in w.beats && w.beats[b] < |w.sessions|
    case Rearms(a) => a in w.rearms && w.rearms[a].session < |w.sessions| && Over(w, w.rearms[a].awaits)
    case PollFires(p) => p in w.polls
    case StopAsked => true
    case StopResolves => w.stop.WaitsFor? && w.stop.tick !in w.ticks
  }

  function ClaimFound(w: Loop, k: Id): Loop {
    var s := |w.sessions|;
    var (renewed, awaits) := Renew(w.(sessions := w.sessions + [Session(false, false, None)], active := Some(s)), s);
    renewed.(ticks := w.ticks[k := FirstRenew(s, awaits)])
  }

  /** No timer is left armed, and none will be armed again. */
  function Halt(w: Loop): Loop {
    ClearHeartbeat(w.(stopping := true, stop := WaitsFor(w.inFlight),
                      polls := if w.pollTimer.Some? then w.polls - {w.pollTimer.value} else w.polls))
  }

  function AskStop(w: Loop): Loop {
    if w.stop != NotAsked then w
    else Halt(if w.active.Some? && w.active.value < |w.sessions| then Aborting(w, w.active.value) else w)
  }

  function Next(w: Loop, step: Step): Loop
    requires Enabled(w, step)
  {
    match step
    case TickRuns(k) => GoOn(w, k, if w.initialized then Preparing else Initializing)
    case Initialized(k, ok) => if ok then GoOn(w.(initialized := true), k, Preparing) else EndTick(w, k)
    case Prepared(k, ok) => if ok then GoOn(w, k, Claiming) else EndTick(w, k)
    case Claimed(k, found) => if found && !w.stopping then ClaimFound(w, k) else EndTick(w, k)
    case FirstRenewed(k) =>
      var s := w.ticks[k].session;
      if w.stopping || w.sessions[s].aborted then Finish(w, k, s)
      else
        var armed := ScheduleHeartbeat(w, s);
        armed.(ticks := w.ticks[k := Executing(s)])
    case ExecuteRenews(k) => Renew(w, w.ticks[k].session).0
    case Executed(k) => Finish(w, k, w.ticks[k].session)
    case Drained(k) => EndTick(w.(active := None), k)
    case RenewCalls(r) => w.(renewals := w.renewals[r := w.renewals[r].(stage := Calling)])
    case RenewSettles(r, ok) =>
      var settled := w.(renewals := w.renewals[r := w.renewals[r].(stage := Settled)]);
      if ok then settled else Aborting(settled, w.renewals[r].session)
    case RenewEnds(r) =>
      var s := w.renewals[r].session;
      w.(renewals := w.renewals - {r}, sessions := w.sessions[s := w.sessions[s].(renewing := None)])
    case BeatFires(b) =>
      var (renewed, awaits) := Renew(w.(beats := w.beats - {b}, heartbeatTimer := None), w.beats[b]);
      renewed.(rearms := renewed.rearms[renewed.next := Rearm(w.beats[b], awaits)], next := renewed.next + 1)
    case Rearms(a) => ScheduleHeartbeat(w.(rearms := w.rearms - {a}), w.rearms[a].session)
    case PollFires(p) =>
      w.(polls := w.polls - {p}, pollTimer := None, ticks := w.ticks[w.next := Begin], inFlight := w.next, next := w.next + 1)
    case StopAsked => AskStop(w)
    case StopResolves => w.(stop := Stopped)
  }
}

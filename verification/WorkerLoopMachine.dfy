/** The worker loop's closures, changing the variables they share. */
module WorkerLoopMachine {
  import opened Wrappers
  import opened WorkerLoop

  lemma PollNext(w: Loop, p: Id)
    requires Enabled(w, PollFires(p))
    ensures Next(w, PollFires(p)) ==
      w.(polls := w.polls - {p}, pollTimer := None, ticks := w.ticks[w.next := Begin], inFlight := w.next, next := w.next + 1)
  {
  }

  lemma BeatNext(w: Loop, b: Id)
    requires Enabled(w, BeatFires(b))
    ensures var (renewed, awaits) := Renew(w.(beats := w.beats - {b}, heartbeatTimer := None), w.beats[b]);
      Next(w, BeatFires(b)) == renewed.(rearms := renewed.rearms[renewed.next := Rearm(w.beats[b], awaits)], next := renewed.next + 1)
  {
    hide Renew;
  }

  lemma StopNext(w: Loop)
    ensures Next(w, StopAsked) ==
      if w.stop != NotAsked then w
      else if w.active.Some? && w.active.value < |w.sessions| then Aborting(Halt(w), w.active.value)
      else Halt(w)
  {
    assert Next(w, StopAsked) == AskStop(w);
    hide Next;
  }

  class Worker {
    var stopping: bool
    var initialized: bool
    var ticks: map<Id, Pc>
    var inFlight: Id
    var polls: set<Id>
    var pollTimer: Option<Id>
    var beats: map<Id, nat>
    var heartbeatTimer: Option<Id>
    var sessions: seq<Session>
    var active: Option<nat>
    var renewals: map<Id, Renewal>
    var rearms: map<Id, Rearm>
    var stop: Stop
    var next: Id

    function Now(): Loop
      reads this
    {
      Loop(stopping, initialized, ticks, inFlight, polls, pollTimer, beats, heartbeatTimer, sessions, active, renewals, rearms, stop, next)
    }

    constructor ()
      ensures Now() == START
    {
      stopping, initialized, ticks, inFlight, polls, pollTimer := false, false, map[0 := Begin], 0, {}, None;
      beats, heartbeatTimer, sessions, active := map[], None, [], None;
      renewals, rearms, stop, next := map[], map[], NotAsked, 1;
    }

    method Abort(s: nat)
      requires s < |sessions|
      modifies this`sessions
      ensures Now() == Aborting(old(Now()), s)
    {
      sessions := sessions[s := sessions[s].(aborted := true)];
    }

    method RenewClaim(s: nat) returns (awaits: Option<Id>)
      requires s < |sessions|
      modifies this`sessions, this`renewals, this`next
      ensures (Now(), awaits) == Renew(old(Now()), s)
    {
      if sessions[s].renewing.Some? { return sessions[s].renewing; }
      if stopping || sessions[s].aborted { return None; }
      awaits := Some(next);
      renewals := renewals[next := Renewal(s, Waiting)];
      sessions := sessions[s := sessions[s].(renewing := awaits)];
      next := next + 1;
    }

    method ArmHeartbeat(s: nat)
      requires s < |sessions|
      modifies this`beats, this`heartbeatTimer, this`next
      ensures Now() == ScheduleHeartbeat(old(Now()), s)
    {
      if sessions[s].completed || stopping || sessions[s].aborted { return; }
      beats, heartbeatTimer, next := beats[next := s], Some(next), next + 1;
    }

    method DisarmHeartbeat()
      modifies this`beats
      ensures Now() == ClearHeartbeat(old(Now()))
    {
      if heartbeatTimer.Some? { beats := beats - {heartbeatTimer.value}; }
    }

    /** The outer finally: schedule the next poll unless stopping. */
    method Leave(k: Id)
      modifies this`ticks, this`polls, this`pollTimer, this`next
      ensures Now() == EndTick(old(Now()), k)
    {
      ticks := ticks - {k};
      if !stopping { polls, pollTimer, next := polls + {next}, Some(next), next + 1; }
    }

    /** The inner finally: no re-arming from here on, then wait for a late renewal. */
    method Complete(k: Id, s: nat)
      requires s < |sessions|
      modifies this`sessions, this`beats, this`heartbeatTimer, this`ticks
      ensures Now() == Finish(old(Now()), k, s)
    {
      sessions := sessions[s := sessions[s].(completed := true)];
      DisarmHeartbeat();
      heartbeatTimer := None;
      ticks := ticks[k := Draining(s, sessions[s].renewing)];
    }

    method Proceed(k: Id, pc: Pc)
      modifies this`ticks, this`polls, this`pollTimer, this`next
      ensures Now() == GoOn(old(Now()), k, pc)
    {
      if stopping { Leave(k); } else { ticks := ticks[k := pc]; }
    }

    method OnTick(k: Id)
      requires Enabled(Now(), TickRuns(k))
      modifies this`ticks, this`polls, this`pollTimer, this`next
      ensures Now() == Next(old(Now()), TickRuns(k))
    {
      if stopping { Leave(k); return; }
      if !initialized { ticks := ticks[k := Initializing]; } else { Proceed(k, Preparing); }
    }

    method OnInitialized(k: Id, ok: bool)
      requires Enabled(Now(), Initialized(k, ok))
      modifies this`initialized, this`ticks, this`polls, this`pollTimer, this`next
      ensures Now() == Next(old(Now()), Initialized(k, ok))
    {
      if !ok { Leave(k); return; }
      initialized := true;
      Proceed(k, Preparing);
    }

    method OnPrepared(k: Id, ok: bool)
      requires Enabled(Now(), Prepared(k, ok))
      modifies this`ticks, this`polls, this`pollTimer, this`next
      ensures Now() == Next(old(Now()), Prepared(k, ok))
    {
      if ok { Proceed(k, Claiming); } else { Leave(k); }
    }

    method OnClaimed(k: Id, found: bool)
      requires Enabled(Now(), Claimed(k, found))
      modifies this
      ensures Now() == Next(old(Now()), Claimed(k, found))
    {
      if !found || stopping { Leave(k); return; }
      var s := |sessions|;
      sessions, active := sessions + [Session(false, false, None)], Some(s);
      var awaits := RenewClaim(s);
      ticks := ticks[k := FirstRenew(s, awaits)];
    }

    method OnFirstRenewed(k: Id)
      requires Enabled(Now(), FirstRenewed(k))
      modifies this
      ensures Now() == Next(old(Now()), FirstRenewed(k))
    {
      var s := ticks[k].session;
      if stopping || sessions[s].aborted { Complete(k, s); return; }
      ArmHeartbeat(s);
      ticks := ticks[k := Executing(s)];
    }

    method OnExecuted(k: Id)
      requires Enabled(Now(), Executed(k))
      modifies this
      ensures Now() == Next(old(Now()), Executed(k))
    {
      Complete(k, ticks[k].session);
    }

    method OnDrained(k: Id)
      requires Enabled(Now(), Drained(k))
      modifies this
      ensures Now() == Next(old(Now()), Drained(k))
    {
      active := None;
      Leave(k);
    }

    method OnSettled(r: Id, ok: bool)
      requires Enabled(Now(), RenewSettles(r, ok))
      modifies this`renewals, this`sessions
      ensures Now() == Next(old(Now()), RenewSettles(r, ok))
    {
      var s := renewals[r].session;
      renewals := renewals[r := renewals[r].(stage := Settled)];
      if !ok { Abort(s); }
    }

    method OnRenewEnded(r: Id)
      requires Enabled(Now(), RenewEnds(r))
      modifies this`renewals, this`sessions
      ensures Now() == Next(old(Now()), RenewEnds(r))
    {
      var s := renewals[r].session;
      renewals := renewals - {r};
      sessions := sessions[s := sessions[s].(renewing := None)];
    }

    method OnHeartbeat(b: Id)
      requires Enabled(Now(), BeatFires(b))
      modifies this`beats, this`heartbeatTimer, this`sessions, this`renewals, this`rearms, this`next
      ensures Now() == Next(old(Now()), BeatFires(b))
    {
      BeatNext(Now(), b);
      hide Next, Renew;
      var s := beats[b];
      beats := beats - {b};
      heartbeatTimer := None;
      assert Now() == old(Now()).(beats := old(beats) - {b}, heartbeatTimer := None);
      var awaits := RenewClaim(s);
      rearms, next := rearms[next := Rearm(s, awaits)], next + 1;
    }

    method OnRearm(a: Id)
      requires Enabled(Now(), Rearms(a))
      modifies this`rearms, this`beats, this`heartbeatTimer, this`next
      ensures Now() == Next(old(Now()), Rearms(a))
    {
      var s := rearms[a].session;
      rearms := rearms - {a};
      ArmHeartbeat(s);
    }

    method Dispatch(p: Id)
      requires Enabled(Now(), PollFires(p))
      modifies this`polls, this`pollTimer, this`ticks, this`inFlight, this`next
      ensures Now() == Next(old(Now()), PollFires(p))
    {
      PollNext(Now(), p);
      hide Next;
      polls, pollTimer := polls - {p}, None;
      ticks, inFlight, next := ticks[next := Begin], next, next + 1;
    }

    /** No timer stays armed; whoever stopped waits for the tick under way. */
    method DisarmAll()
      modifies this`stopping, this`polls, this`beats, this`stop
      ensures Now() == Halt(old(Now()))
    {
      stopping := true;
      if pollTimer.Some? { polls := polls - {pollTimer.value}; }
      DisarmHeartbeat();
      stop := WaitsFor(inFlight);
    }

    method AskToStop()
      modifies this`stopping, this`polls, this`beats, this`sessions, this`stop
      ensures Now() == Next(old(Now()), StopAsked)
    {
      StopNext(Now());
      hide Next, AskStop, Halt, Aborting;
      if stop != NotAsked { return; }
      DisarmAll();
      if active.Some? && active.value < |sessions| { Abort(active.value); }
    }
  }
}

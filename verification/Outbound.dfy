/** One outbound provider request: a permit, bounded attempts, and exactly one verdict. */
module Outbound {
  import opened CircuitBreaker
  import opened CircuitRuns
  import opened Wrappers
  import CircuitSafety

  const MAX_ATTEMPTS := 4

  /** `attempts` is 1 for requests that must not be replayed. */
  datatype Options = Options(attempts: nat, timeout: nat, retryMaximum: nat)

  predicate OptionsOk(o: Options) {
    1 <= o.attempts <= MAX_ATTEMPTS && 1 <= o.timeout <= REQUEST_LIMIT
  }

  /** Who gave up: the caller, or the deadline. */
  datatype Cause = Caller | Deadline

  datatype Answer =
    | Status(code: nat, retryAfter: Option<nat>)
    | Redirected
    | BadBody
    | Unreachable

  datatype Abort = Never | InCall(cause: Cause) | InWait(cause: Cause)

  /** What the world does in one attempt: the answer, the time since the start, the random
      part of the wait, and whether the attempt or the wait behind it is cut off. */
  datatype Turn = Turn(answer: Answer, elapsed: nat, jitter: nat, abort: Abort)

  datatype Ending = Returned(code: nat) | Threw | GaveUp(cause: Cause)

  predicate Transient(code: nat) {
    code == 408 || code == 429 || code == 500 || code == 502 || code == 503 || code == 504
  }

  function Delay(t: Turn): nat {
    if t.answer.Status? && t.answer.retryAfter.Some? && t.answer.retryAfter.value > t.jitter then t.answer.retryAfter.value else t.jitter
  }

  predicate TooLong(t: Turn, o: Options) {
    Delay(t) > o.retryMaximum || t.elapsed + Delay(t) >= o.timeout
  }

  /** The attempt asks for another one: a transient status that can be waited out within the
      deadline, or no connection at all; and it is not the last. */
  predicate Retries(t: Turn, o: Options, last: bool) {
    && !last && t.abort == Never
    && ((t.answer.Status? && Transient(t.answer.code) && !TooLong(t, o)) || t.answer.Unreachable?)
  }

  /** How the request ends if it ends with this attempt. */
  function Ends(t: Turn, o: Options, last: bool): Ending {
    if t.abort.InCall? then GaveUp(t.abort.cause)
    else
      match t.answer
      case Redirected => Threw
      case BadBody => Threw
      case Unreachable => if last then Threw else if t.abort.InWait? then GaveUp(t.abort.cause) else Threw
      case Status(code, _) =>
        if !Transient(code) || last || TooLong(t, o) then Returned(code)
        else if t.abort.InWait? then GaveUp(t.abort.cause) else Returned(code)
  }

  function VerdictOf(e: Ending): Verdict {
    match e
    case Returned(code) => if Transient(code) then Failure else Success
    case Threw => Failure
    case GaveUp(cause) => if cause == Caller then Cancelled else Failure
  }

  /** The attempts up to its end: each before the last asked for another, and the last ends it. */
  ghost predicate Played(turns: nat -> Turn, o: Options, calls: nat, e: Ending) {
    && 1 <= calls <= o.attempts
    && (forall k :: 0 <= k < calls - 1 ==> Retries(turns(k), o, false))
    && !Retries(turns(calls - 1), o, calls == o.attempts)
    && e == Ends(turns(calls - 1), o, calls == o.attempts)
  }

  method Attempts(turns: nat -> Turn, o: Options) returns (calls: nat, e: Ending)
    requires OptionsOk(o)
    ensures Played(turns, o, calls, e)
  {
    calls := 1;
    while true
      invariant 1 <= calls <= o.attempts && forall k :: 0 <= k < calls - 1 ==> Retries(turns(k), o, false)
      decreases o.attempts - calls
    {
      var t := turns(calls - 1);
      if t.abort.InCall? { return calls, GaveUp(t.abort.cause); }
      match t.answer {
        case Redirected => return calls, Threw;
        case BadBody => return calls, Threw;
        case Unreachable =>
          if calls >= o.attempts { return calls, Threw; }
        case Status(code, retryAfter) =>
          if !Transient(code) || calls >= o.attempts { return calls, Returned(code); }
          var server := if retryAfter.Some? then retryAfter.value else 0;
          var delay := if server > t.jitter then server else t.jitter;
          if delay > o.retryMaximum || t.elapsed + delay >= o.timeout { return calls, Returned(code); }
      }
      if t.abort.InWait? { return calls, GaveUp(t.abort.cause); }
      calls := calls + 1;
    }
  }

  // ---------- around the shared breaker ----------

  /** Steps of other requests, none of which completes permit `mine` or takes its name. */
  predicate OfOthers(steps: seq<Timed>, mine: PermitId) {
    forall i :: 0 <= i < |steps| ==> match steps[i].op
      case AcquireOp(_, id) => id != mine
      case CompleteOp(id, _) => id != mine
      case LostOp(id) => id != mine
      case ResetOp(_) => true
  }

  lemma {:induction false} PermitStays(c: Settings, w: World, steps: seq<Timed>, mine: PermitId)
    requires OfOthers(steps, mine)
    ensures mine in Exec(c, w, steps).flights <==> mine in w.flights
    ensures mine in w.flights ==> Exec(c, w, steps).flights[mine] == w.flights[mine]
    decreases |steps|
  {
    hide Acquire, Complete, Reset;
    if steps != [] {
      assert OfOthers(steps[1..], mine) by {
        forall i | 0 <= i < |steps[1..]| ensures steps[1..][i] == steps[i + 1] {}
      }
      PermitStays(c, Step(c, w, steps[0]), steps[1..], mine);
    }
  }

  /** What other requests and operators do to the shared circuits. `flights` are the permits out. */
  method Meanwhile(breaker: Breaker, w: World, steps: seq<Timed>)
    requires breaker.states == w.states
    modifies breaker`states
    ensures breaker.states == Exec(breaker.settings, w, steps).states
  {
    var at, i := w, 0;
    assert steps[0..] == steps;
    while i < |steps|
      invariant 0 <= i <= |steps| && breaker.states == at.states
      invariant Exec(breaker.settings, w, steps) == Exec(breaker.settings, at, steps[i..])
    {
      var t := steps[i];
      match t.op {
        case AcquireOp(key, _) => var _ := breaker.AcquirePermit(key, t.sweptAt, t.at);
        case CompleteOp(id, verdict) =>
          if id in at.flights { var _ := breaker.CompletePermit(at.flights[id].permit, verdict, t.sweptAt, t.at); }
        case LostOp(_) =>
        case ResetOp(key) => var _ := breaker.ResetCircuit(key, t.sweptAt, t.at);
      }
      assert steps[i..][0] == t && steps[i..][1..] == steps[i + 1..];
      at, i := Step(breaker.settings, at, t), i + 1;
    }
  }

  /** The instants at which a request takes its permit and records its result. */
  datatype Instants = Instants(sweptAt: nat, now: nat, sweptLater: nat, later: nat)

  function Taking(key: Key, id: PermitId, at: Instants): Timed {
    Timed(AcquireOp(key, id), at.sweptAt, at.now)
  }

  function Settling(id: PermitId, e: Ending, at: Instants): Timed {
    Timed(CompleteOp(id, VerdictOf(e)), at.sweptLater, at.later)
  }

  /** The shared circuits when the result comes in. */
  ghost function AtResult(c: Settings, w: World, key: Key, id: PermitId, steps: seq<Timed>, at: Instants): World {
    Exec(c, Step(c, w, Taking(key, id, at)), steps)
  }

  /** The store takes the result of a permit that is out. */
  predicate Recorded(c: Settings, w: World, t: Timed) {
    t.op.CompleteOp? && t.op.id in w.flights
    && Complete(c, w.states, w.flights[t.op.id].permit, t.op.verdict, t.sweptAt, t.at).1
  }

  /** A refused permit makes no call. Otherwise the attempts end in some way, within their
      bound, and the circuits are those of the run in which this permit is completed once,
      with the verdict of that ending, after whatever others did meanwhile. A store that has
      no room for the result fails the request. */
  method Request(breaker: Breaker, w: World, key: Key, id: PermitId, turns: nat -> Turn, o: Options, steps: seq<Timed>, at: Instants)
    returns (calls: nat, ending: Option<Ending>, r: Result<Ending, Refusal>)
    requires OptionsOk(o) && breaker.states == w.states && id !in w.flights && OfOthers(steps, id)
    modifies breaker`states
    ensures var permit := Acquire(breaker.settings, w.states, key, at.sweptAt, at.now).1;
      if permit.Err? then
        calls == 0 && ending == None && r == Err(permit.error)
        && breaker.states == Acquire(breaker.settings, w.states, key, at.sweptAt, at.now).0
      else
        && ending.Some? && Played(turns, o, calls, ending.value) && calls <= MAX_ATTEMPTS
        && var (before, last) := (AtResult(breaker.settings, w, key, id, steps, at), Settling(id, ending.value, at));
           && breaker.states == Step(breaker.settings, before, last).states
           && r == if Recorded(breaker.settings, before, last) then Ok(ending.value) else Err(Busy)
  {
    var c := breaker.settings;
    var permit := breaker.AcquirePermit(key, at.sweptAt, at.now);
    if permit.Err? { return 0, None, Err(permit.error); }
    var e;
    calls, e := Attempts(turns, o);
    var held := Step(c, w, Taking(key, id, at));
    Meanwhile(breaker, held, steps);
    PermitStays(c, held, steps, id);
    var recorded := breaker.CompletePermit(permit.value, VerdictOf(e), at.sweptLater, at.later);
    ending := Some(e);
    r := if recorded then Ok(e) else Err(Busy);
  }

  lemma {:induction false} LegalLast(c: Settings, limit: nat, w: World, steps: seq<Timed>, last: Timed)
    requires Legal(c, limit, w, steps + [last])
    ensures Legal(c, limit, w, steps) && Allowed(Exec(c, w, steps), limit, last)
    decreases |steps|
  {
    hide Step, Allowed;
    if steps == [] {
      assert steps + [last] == [last];
    } else {
      assert (steps + [last])[1..] == steps[1..] + [last];
      LegalLast(c, limit, Step(c, w, steps[0]), steps[1..], last);
    }
  }

  /** In every run whose permits come back within the lease of a probe the result is recorded:
      a request that was let through returns or throws as its attempts ended. */
  lemma ResultStands(c: Settings, limit: nat, w: World, key: Key, id: PermitId, e: Ending, steps: seq<Timed>, at: Instants)
    requires SettingsOk(c) && LimitOk(limit) && Inv(c, w) && id !in w.flights && OfOthers(steps, id)
    requires Acquire(c, w.states, key, at.sweptAt, at.now).1.Ok?
    requires Allowed(w, limit, Taking(key, id, at))
    requires Legal(c, limit, Step(c, w, Taking(key, id, at)), steps + [Settling(id, e, at)])
    ensures Recorded(c, AtResult(c, w, key, id, steps, at), Settling(id, e, at))
  {
    var taken, last := Taking(key, id, at), Settling(id, e, at);
    assert id in Step(c, w, taken).flights;
    hide Inv, Step, Allowed, Complete;
    StepKeeps(c, limit, w, taken);
    var held := Step(c, w, taken);
    LegalLast(c, limit, held, steps, last);
    Reachable(c, limit, held, steps);
    PermitStays(c, held, steps, id);
    CircuitSafety.ResultIsRecorded(c, limit, Exec(c, held, steps), last);
  }

  /** One attempt alone decides: a request that gets its first answer through, not transient,
      counts as a success after one call; one that never connects uses every attempt. */
  lemma Extremes(turns: nat -> Turn, o: Options, calls: nat, e: Ending)
    requires OptionsOk(o) && Played(turns, o, calls, e)
    ensures turns(0).abort == Never && turns(0).answer.Status? && !Transient(turns(0).answer.code) ==>
      calls == 1 && VerdictOf(e) == Success
    ensures (forall k :: turns(k).answer.Unreachable? && turns(k).abort == Never) ==> calls == o.attempts && e == Threw
  {
    if calls > 1 { assert Retries(turns(0), o, false); }
  }

  /** The attempts are determined by what the world does: no two ways to play them. */
  lemma PlayedOneWay(turns: nat -> Turn, o: Options, c1: nat, e1: Ending, c2: nat, e2: Ending)
    requires Played(turns, o, c1, e1) && Played(turns, o, c2, e2)
    ensures c1 == c2 && e1 == e2
  {
    var (k1: nat, k2: nat) := (c1 - 1, c2 - 1);
    assert c1 < c2 ==> Retries(turns(k1), o, false);
    assert c2 < c1 ==> Retries(turns(k2), o, false);
  }
}

/** The queue in front of the database: each caller waits for the promise that was the tail
    when it came, and leaves its own promise as the new tail. */
module DatabaseMutex {
  import opened Wrappers

  datatype Stage = Waiting | Working | Released

  /** One call of run: the caller it waits behind, if any. */
  datatype Turn = Turn(behind: Option<nat>, stage: Stage)

  datatype Queue = Queue(tail: Option<nat>, turns: seq<Turn>)

  const EMPTY := Queue(None, [])

  datatype Step = Arrive | Enter(i: nat) | Leave(i: nat)

  predicate Resolved(q: Queue, behind: Option<nat>) {
    behind.None? || (behind.value < |q.turns| && q.turns[behind.value].stage == Released)
  }

  predicate Enabled(q: Queue, step: Step) {
    match step
    case Arrive => true
    case Enter(i) => i < |q.turns| && q.turns[i].stage == Waiting && Resolved(q, q.turns[i].behind)
    case Leave(i) => i < |q.turns| && q.turns[i].stage == Working
  }

  function Next(q: Queue, step: Step): Queue
    requires Enabled(q, step)
  {
    match step
    case Arrive => Queue(Some(|q.turns|), q.turns + [Turn(q.tail, Waiting)])
    case Enter(i) => q.(turns := q.turns[i := q.turns[i].(stage := Working)])
    case Leave(i) => q.(turns := q.turns[i := q.turns[i].(stage := Released)])
  }

  /** The mutex itself: `tail`, and what the closures of its calls hold. */
  class Mutex {
    var tail: Option<nat>
    var turns: seq<Turn>

    function Now(): Queue
      reads this
    {
      Queue(tail, turns)
    }

    constructor ()
      ensures Now() == EMPTY
    {
      tail, turns := None, [];
    }

    method Line() returns (i: nat)
      modifies this
      ensures i == |old(turns)| && Now() == Next(old(Now()), Arrive)
    {
      var previous := tail;
      i := |turns|;
      tail := Some(i);
      turns := turns + [Turn(previous, Waiting)];
    }

    method Begin(i: nat)
      requires Enabled(Now(), Enter(i))
      modifies this`turns
      ensures Now() == Next(old(Now()), Enter(i))
    {
      turns := turns[i := turns[i].(stage := Working)];
    }

    method End(i: nat)
      requires Enabled(Now(), Leave(i))
      modifies this`turns
      ensures Now() == Next(old(Now()), Leave(i))
    {
      turns := turns[i := turns[i].(stage := Released)];
    }
  }

  // ---------- every run ----------

  ghost predicate Legal(q: Queue, run: seq<Step>)
    decreases |run|
  {
    run == [] || (Enabled(q, run[0]) && Legal(Next(q, run[0]), run[1..]))
  }

  function Exec(q: Queue, run: seq<Step>): Queue
    requires Legal(q, run)
    decreases |run|
  {
    if run == [] then q else Exec(Next(q, run[0]), run[1..])
  }

  /** Callers stand in the order they came; nobody begins before all earlier ones are done. */
  predicate InLine(q: Queue) {
    && q.tail == (if q.turns == [] then None else Some(|q.turns| - 1))
    && (forall i :: 0 <= i < |q.turns| ==> q.turns[i].behind == if i == 0 then None else Some(i - 1))
    && forall i, j :: 0 <= i < j < |q.turns| && q.turns[j].stage != Waiting ==> q.turns[i].stage == Released
  }

  lemma StepKeeps(q: Queue, step: Step)
    requires InLine(q) && Enabled(q, step)
    ensures InLine(Next(q, step))
  {
    if step.Enter? && step.i > 0 { assert q.turns[step.i].behind == Some(step.i - 1); }
  }

  lemma {:induction false} Keeps(q: Queue, run: seq<Step>)
    requires InLine(q) && Legal(q, run)
    ensures InLine(Exec(q, run))
    decreases |run|
  {
    if run != [] {
      StepKeeps(q, run[0]);
      Keeps(Next(q, run[0]), run[1..]);
    }
  }

  /** In every run at most one caller works, callers work in the order they came, and while
      somebody waits and nobody works the next in line can begin. */
  lemma FirstInFirstServed(run: seq<Step>)
    requires Legal(EMPTY, run)
    ensures var q := Exec(EMPTY, run);
      && (forall i, j :: 0 <= i < |q.turns| && 0 <= j < |q.turns| && q.turns[i].stage == Working && q.turns[j].stage == Working ==> i == j)
      && (forall i, j :: 0 <= i < j < |q.turns| && q.turns[j].stage != Waiting ==> q.turns[i].stage == Released)
      && (forall i :: 0 <= i < |q.turns| && q.turns[i].stage == Waiting ==>
            exists k :: 0 <= k <= i && (q.turns[k].stage == Working || Enabled(q, Enter(k))))
  {
    Keeps(EMPTY, run);
    var q := Exec(EMPTY, run);
    forall i | 0 <= i < |q.turns| && q.turns[i].stage == Waiting
      ensures exists k :: 0 <= k <= i && (q.turns[k].stage == Working || Enabled(q, Enter(k)))
    {
      FirstUnreleased(q, i);
    }
  }

  lemma {:induction false} FirstUnreleased(q: Queue, i: nat)
    requires InLine(q) && i < |q.turns| && q.turns[i].stage != Released
    ensures exists k :: 0 <= k <= i && (q.turns[k].stage == Working || Enabled(q, Enter(k)))
    decreases i
  {
    if i > 0 && q.turns[i - 1].stage != Released {
      FirstUnreleased(q, i - 1);
    } else if q.turns[i].stage == Waiting {
      assert q.turns[i].behind == if i == 0 then None else Some(i - 1);
      assert Enabled(q, Enter(i));
    }
  }

  // ---------- who has been served ----------

  function StageBefore(q: Queue, i: nat): Stage {
    if i < |q.turns| then q.turns[i].stage else Waiting
  }

  lemma {:induction false} StagesFollow(q: Queue, run: seq<Step>, i: nat)
    requires Legal(q, run) && i < |Exec(q, run).turns|
    ensures Exec(q, run).turns[i].stage ==
      if StageBefore(q, i) == Released || Leave(i) in run then Released
      else if StageBefore(q, i) == Working || Enter(i) in run then Working else Waiting
    decreases |run|
  {
    if run != [] {
      StagesFollow(Next(q, run[0]), run[1..], i);
      assert forall step :: step in run <==> step == run[0] || step in run[1..];
    }
  }

  function Arrivals(run: seq<Step>): nat {
    if run == [] then 0 else (if run[0] == Arrive then 1 else 0) + Arrivals(run[1..])
  }

  lemma {:induction false} TurnsAreArrivals(q: Queue, run: seq<Step>)
    requires Legal(q, run)
    ensures |Exec(q, run).turns| == |q.turns| + Arrivals(run)
    decreases |run|
  {
    if run != [] { TurnsAreArrivals(Next(q, run[0]), run[1..]); }
  }

  /** In every run each call that came has a turn, and waits until it has entered, works until
      it has left, and is done from then on. */
  lemma EveryCallIsServed(run: seq<Step>, i: nat)
    requires Legal(EMPTY, run) && i < Arrivals(run)
    ensures i < |Exec(EMPTY, run).turns|
    ensures Exec(EMPTY, run).turns[i].stage == if Leave(i) in run then Released else if Enter(i) in run then Working else Waiting
  {
    TurnsAreArrivals(EMPTY, run);
    StagesFollow(EMPTY, run, i);
  }

  /** Another call may come at any time. */
  lemma AnybodyMayCome(run: seq<Step>)
    requires Legal(EMPTY, run)
    ensures Enabled(Exec(EMPTY, run), Arrive) && |Next(Exec(EMPTY, run), Arrive).turns| == Arrivals(run) + 1
  {
    TurnsAreArrivals(EMPTY, run);
  }
}

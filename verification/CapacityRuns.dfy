/** Whole runs of the budget tables: what the usage rows count, and when a request is admitted. */
module CapacityRuns {
  import opened Capacity
  import opened MapSums
  import opened Wrappers

  datatype Op =
    | AdmitOp(q: Request, id: PermitId)
    | ReleaseOp(id: PermitId)
    | CreateOp(id: ArtifactId, project: ProjectId, size: nat, authorized: bool)
    | RemoveOp(id: ArtifactId, project: ProjectId, authorized: bool, referenced: bool)

  datatype Timed = Timed(op: Op, at: nat)

  type Run = seq<Timed>

  const EMPTY := Tables(map[], map[], map[])

  ghost function Step(t: Tables, limits: Kind -> Limits, op: Op, now: nat): Tables {
    match op
    case AdmitOp(q, id) => Admit(t, limits(q.kind), q, id, now).0
    case ReleaseOp(id) => Release(t, id)
    case CreateOp(id, project, size, authorized) => Create(t, id, project, size, authorized, now).0
    case RemoveOp(id, project, authorized, referenced) => Remove(t, id, project, authorized, referenced).0
  }

  ghost function StateAt(limits: Kind -> Limits, run: Run, i: nat): Tables
    requires i <= |run|
  {
    if i == 0 then EMPTY else Step(StateAt(limits, run, i - 1), limits, run[i - 1].op, run[i - 1].at)
  }

  /** Ids are drawn afresh, and the clock never goes back. */
  ghost predicate Legal(limits: Kind -> Limits, run: Run) {
    && (forall i :: 0 <= i < |run| ==> FreshAt(limits, run, i))
    && forall i, k :: 0 <= i <= k < |run| ==> run[i].at <= run[k].at
  }

  ghost predicate FreshAt(limits: Kind -> Limits, run: Run, i: nat)
    requires i < |run|
  {
    && (run[i].op.AdmitOp? ==> run[i].op.id !in StateAt(limits, run, i).permits)
    && (run[i].op.CreateOp? ==> run[i].op.id !in StateAt(limits, run, i).artifacts)
  }

  // ---------- what is counted ----------

  /** Step i admitted a request that the row `key` counts. */
  ghost predicate AdmitsAt(limits: Kind -> Limits, run: Run, i: nat, key: UsageKey)
    requires i < |run|
  {
    && run[i].op.AdmitOp? && run[i].op.q.kind == key.kind && run[i].at / 86400 == key.day
    && (key.scope.User? ==> run[i].op.q.user == key.scope.user)
    && Admit(StateAt(limits, run, i), limits(run[i].op.q.kind), run[i].op.q, run[i].op.id, run[i].at).1 == None
  }

  /** Requests admitted before step i, and the tokens they asked for. */
  ghost function Admissions(limits: Kind -> Limits, run: Run, i: nat, key: UsageKey): Usage
    requires i <= |run|
  {
    if i == 0 then Usage(0, 0)
    else
      var before := Admissions(limits, run, i - 1, key);
      if AdmitsAt(limits, run, i - 1, key) then Usage(before.requests + 1, before.tokens + run[i - 1].op.q.tokens) else before
  }

  lemma ChargedRow(usage: map<UsageKey, Usage>, q: Request, day: nat, key: UsageKey)
    ensures Used(Charged(usage, q, day), key) ==
      if key == UsageKey(User(q.user), q.kind, day) || key == UsageKey(Global, q.kind, day)
      then Usage(Used(usage, key).requests + 1, Used(usage, key).tokens + q.tokens) else Used(usage, key)
  {
  }

  /** An admission charges the user's row and the installation's, and no other row of the last 32 days. */
  lemma AdmitCharges(t: Tables, limits: Limits, q: Request, id: PermitId, now: nat, key: UsageKey)
    requires key.day + 32 >= now / 86400
    ensures var (after, error) := Admit(t, limits, q, id, now);
      var mine := error == None && q.kind == key.kind && now / 86400 == key.day && (key.scope.User? ==> q.user == key.scope.user);
      Used(after.usage, key) == if mine then Usage(Used(t.usage, key).requests + 1, Used(t.usage, key).tokens + q.tokens) else Used(t.usage, key)
  {
    hide Charged;
    ChargedRow(Recent(t.usage, now / DAY), q, now / DAY, key);
  }

  /** Every usage row of the last 32 days counts exactly the admissions of its user, or of all
      users, for its kind on its day, and the tokens they asked for. */
  lemma {:induction false} UsageCounts(limits: Kind -> Limits, run: Run, i: nat, key: UsageKey, now: nat)
    requires Legal(limits, run) && i <= |run| && (i > 0 ==> run[i - 1].at <= now) && key.day + 32 >= now / 86400
    ensures Used(StateAt(limits, run, i).usage, key) == Admissions(limits, run, i, key)
  {
    if i > 0 {
      var (t, op, at) := (StateAt(limits, run, i - 1), run[i - 1].op, run[i - 1].at);
      UsageCounts(limits, run, i - 1, key, at);
      if op.AdmitOp? { AdmitCharges(t, limits(op.q.kind), op.q, op.id, at, key); }
      hide Admit;
    }
  }

  // ---------- budgets over runs ----------

  function RequestLimit(limits: Kind -> Limits, key: UsageKey): nat {
    if key.scope.User? then limits(key.kind).userRequests else limits(key.kind).globalRequests
  }

  function TokenLimit(limits: Kind -> Limits, key: UsageKey): nat {
    if key.scope.User? then limits(key.kind).userTokens else limits(key.kind).globalTokens
  }

  lemma AdmitMeans(t: Tables, limits: Kind -> Limits, q: Request, id: PermitId, now: nat, key: UsageKey)
    requires Admit(t, limits(q.kind), q, id, now).1 == None && key.kind == q.kind && key.day == now / 86400
    requires key.scope.User? ==> key.scope.user == q.user
    ensures Used(t.usage, key).requests + 1 <= RequestLimit(limits, key) && Used(t.usage, key).tokens + q.tokens <= TokenLimit(limits, key)
  {
    hide Sum;
  }

  /** No run admits more requests of a user, or of all users, of one kind on one day than the
      limit, nor more tokens. */
  lemma {:induction false} NeverOverBudget(limits: Kind -> Limits, run: Run, i: nat, key: UsageKey)
    requires Legal(limits, run) && i <= |run|
    ensures Admissions(limits, run, i, key).requests <= RequestLimit(limits, key)
    ensures Admissions(limits, run, i, key).tokens <= TokenLimit(limits, key)
  {
    if i > 0 {
      NeverOverBudget(limits, run, i - 1, key);
      if AdmitsAt(limits, run, i - 1, key) {
        var (t, op, at) := (StateAt(limits, run, i - 1), run[i - 1].op, run[i - 1].at);
        UsageCounts(limits, run, i - 1, key, at);
        AdmitMeans(t, limits, op.q, op.id, at, key);
      }
    }
  }

  // ---------- permits over runs ----------

  /** The permit of `id` that was given before step i and not given back since. */
  ghost function Out(limits: Kind -> Limits, run: Run, i: nat, id: PermitId): Option<Permit>
    requires i <= |run|
  {
    if i == 0 then None
    else if run[i - 1].op == ReleaseOp(id) then None
    else if run[i - 1].op.AdmitOp? && run[i - 1].op.id == id
         && Admit(StateAt(limits, run, i - 1), limits(run[i - 1].op.q.kind), run[i - 1].op.q, id, run[i - 1].at).1 == None then
      var q := run[i - 1].op.q;
      Some(Permit(q.user, q.kind, q.project, run[i - 1].at + (limits(q.kind).timeoutMs + 999) / 1000 + 30, q.bytes, q.count))
    else Out(limits, run, i - 1, id)
  }

  ghost predicate LivePermit(t: Tables, id: PermitId, p: Permit, now: nat) {
    id in t.permits && t.permits[id] == p && now < p.expiresAt
  }

  lemma AdmitPermits(t: Tables, limits: Limits, q: Request, id: PermitId, now: nat, other: PermitId, p: Permit, later: nat)
    requires now <= later
    ensures var (after, error) := Admit(t, limits, q, id, now);
      LivePermit(after, other, p, later) <==>
        if error == None && other == id then
          later < p.expiresAt && p == Permit(q.user, q.kind, q.project, now + (limits.timeoutMs + 999) / 1000 + 30, q.bytes, q.count)
        else LivePermit(t, other, p, later)
  {
    hide Refusal, Charged;
  }

  /** The permits that have not run out are exactly those given and not given back. */
  lemma {:induction false} PermitsAreOut(limits: Kind -> Limits, run: Run, i: nat, id: PermitId, p: Permit, now: nat)
    requires Legal(limits, run) && i <= |run| && (i > 0 ==> run[i - 1].at <= now)
    ensures LivePermit(StateAt(limits, run, i), id, p, now) <==> Out(limits, run, i, id) == Some(p) && now < p.expiresAt
  {
    if i > 0 {
      var (t, op, at) := (StateAt(limits, run, i - 1), run[i - 1].op, run[i - 1].at);
      PermitsAreOut(limits, run, i - 1, id, p, now);
      if op.AdmitOp? { AdmitPermits(t, limits(op.q.kind), op.q, op.id, at, id, p, now); }
      hide Admit, Create;
    }
  }

  // ---------- answers ----------

  ghost function Running(t: Tables, kind: Kind, now: nat): set<PermitId> {
    set id | id in t.permits && t.permits[id].kind == kind && now < t.permits[id].expiresAt
  }

  ghost function RunningOf(t: Tables, kind: Kind, user: UserId, now: nat): set<PermitId> {
    set id | id in t.permits && t.permits[id].kind == kind && t.permits[id].user == user && now < t.permits[id].expiresAt
  }

  ghost predicate Exhausted(u: Usage, tokens: nat, limits: Limits, scope: Scope) {
    if scope.User? then u.requests >= limits.userRequests || u.tokens + tokens > limits.userTokens
    else u.requests >= limits.globalRequests || u.tokens + tokens > limits.globalTokens
  }

  /** What stands in the way of a request, in the order in which it is looked for. */
  ghost function Obstacle(t: Tables, limits: Limits, q: Request, mine: Usage, all: Usage, now: nat): Option<Error> {
    if q.tokens == 0 then Some(InvalidBudget)
    else if |Running(t, q.kind, now)| >= limits.globalConcurrency || |RunningOf(t, q.kind, q.user, now)| >= limits.userConcurrency then
      Some(ProviderBusy)
    else if Exhausted(mine, q.tokens, limits, User(q.user)) || Exhausted(all, q.tokens, limits, Global) then Some(DailyBudget)
    else if q.project.Some? && q.count + q.bytes > 0
         && (Holdings(t, q.project.value, now) + q.count > 128 || Occupancy(t, q.project.value, now) + q.bytes > 268435456) then
      Some(ArtifactCapacity)
    else None
  }

  lemma PurgedCounts(t: Tables, q: Request, now: nat)
    ensures Sum(Live(t.permits, now), LiveOf(q.kind, now)) == |Running(t, q.kind, now)|
    ensures Sum(Live(t.permits, now), LiveOfUser(q.kind, q.user, now)) == |RunningOf(t, q.kind, q.user, now)|
  {
    SumCounts(Live(t.permits, now), LiveOf(q.kind, now), Running(t, q.kind, now));
    SumCounts(Live(t.permits, now), LiveOfUser(q.kind, q.user, now), RunningOf(t, q.kind, q.user, now));
  }

  lemma PurgedHoldings(t: Tables, project: ProjectId, now: nat)
    ensures Holdings(Purged(t, now), project, now) == Holdings(t, project, now)
    ensures Occupancy(Purged(t, now), project, now) == Occupancy(t, project, now)
  {
    ExpiredReserveNothing(t, project, now);
    hide Sum;
  }

  /** A request of a run is answered by what runs at that instant, what the run has admitted
      that day, and what the project holds; refused, it leaves the tables as they were. */
  lemma AdmitAnswers(limits: Kind -> Limits, run: Run, i: nat)
    requires Legal(limits, run) && i < |run| && run[i].op.AdmitOp?
    ensures var (t, q, at) := (StateAt(limits, run, i), run[i].op.q, run[i].at);
      var (mine, all) := (Admissions(limits, run, i, UsageKey(User(q.user), q.kind, at / 86400)), Admissions(limits, run, i, UsageKey(Global, q.kind, at / 86400)));
      var (after, error) := Admit(t, limits(q.kind), q, run[i].op.id, at);
      error == Obstacle(t, limits(q.kind), q, mine, all, at) && (error.Some? ==> after == t)
  {
    var (t, q, at) := (StateAt(limits, run, i), run[i].op.q, run[i].at);
    UsageCounts(limits, run, i, UsageKey(User(q.user), q.kind, at / 86400), at);
    UsageCounts(limits, run, i, UsageKey(Global, q.kind, at / 86400), at);
    PurgedCounts(t, q, at);
    if q.project.Some? { PurgedHoldings(t, q.project.value, at); }
    hide StateAt, Admissions, Legal, Running, RunningOf, Holdings, Occupancy;
  }

  /** An artifact is stored exactly when its size, access and the project's room allow it. */
  lemma CreateAnswers(t: Tables, id: ArtifactId, project: ProjectId, size: nat, authorized: bool, now: nat)
    ensures var (after, error) := Create(t, id, project, size, authorized, now);
      && (error == None <==> 1 <= size <= 67108864 && authorized
                             && Holdings(t, project, now) < 128 && Occupancy(t, project, now) + size <= 268435456)
      && (if error.Some? then after == t
          else after.artifacts == t.artifacts[id := Artifact(project, size)] && after.permits == t.permits && after.usage == t.usage)
      && (error.Some? ==> (error.value == if size == 0 || size > 67108864 then ArtifactSize else if !authorized then Unauthorized else ArtifactCapacity))
  {
  }

  /** An artifact goes exactly when it is the project's, with access, and nothing refers to it. */
  lemma RemoveAnswers(t: Tables, id: ArtifactId, project: ProjectId, authorized: bool, referenced: bool)
    ensures var (after, error) := Remove(t, id, project, authorized, referenced);
      var there := id in t.artifacts && t.artifacts[id].project == project;
      && error == (if !authorized then Some(Unauthorized) else if !there then Some(NotFound) else if referenced then Some(Referenced) else None)
      && (if error.Some? then after == t
          else id !in after.artifacts && after.artifacts.Keys == t.artifacts.Keys - {id} && after.permits == t.permits && after.usage == t.usage
               && forall other :: other in after.artifacts ==> after.artifacts[other] == t.artifacts[other])
  {
  }

  // ---------- the room of a project ----------

  /** A stored artifact takes its room in its own project, and gives it back when it goes. */
  lemma ArtifactTakesRoom(t: Tables, id: ArtifactId, owner: ProjectId, size: nat, project: ProjectId, now: nat)
    requires id !in t.artifacts
    ensures var full := t.(artifacts := t.artifacts[id := Artifact(owner, size)]);
      && Holdings(full, project, now) == Holdings(t, project, now) + (if owner == project then 1 else 0)
      && Occupancy(full, project, now) == Occupancy(t, project, now) + (if owner == project then size else 0)
  {
    SumAdd(t.artifacts, id, Artifact(owner, size), CountIn(project));
    SumAdd(t.artifacts, id, Artifact(owner, size), BytesIn(project));
    hide Sum;
  }

  /** A permit takes what it reserves in its own project, as long as it has not run out. */
  lemma PermitTakesRoom(t: Tables, id: PermitId, p: Permit, project: ProjectId, now: nat)
    requires id !in t.permits
    ensures var taken := t.(permits := t.permits[id := p]);
      var counts := p.project == Some(project) && now < p.expiresAt;
      && Holdings(taken, project, now) == Holdings(t, project, now) + (if counts then p.count else 0)
      && Occupancy(taken, project, now) == Occupancy(t, project, now) + (if counts then p.bytes else 0)
  {
    SumAdd(t.permits, id, p, ReservedCount(project, now));
    SumAdd(t.permits, id, p, ReservedBytes(project, now));
    hide Sum;
  }

  lemma NothingIsHeld(project: ProjectId, now: nat)
    ensures Holdings(EMPTY, project, now) == 0 && Occupancy(EMPTY, project, now) == 0
  {
    assert EMPTY.artifacts == map[] && EMPTY.permits == map[];
  }

  /** An admission puts its permit beside those that have not run out, and drops the others. */
  lemma AdmitLeavesLive(t: Tables, limits: Limits, q: Request, id: PermitId, now: nat)
    ensures var (after, error) := Admit(t, limits, q, id, now);
      && after.artifacts == t.artifacts
      && (error == None ==> id in after.permits && forall other :: other != id ==>
            (other in after.permits <==> other in t.permits && now < t.permits[other].expiresAt))
  {
    hide Refusal, Charged;
  }
}

/** Artifact capacity of a project, shared between stored artifacts and the reservations of
    provider requests, and the daily budgets of providers. Times are seconds. */
module Capacity {
  import opened Wrappers
  import opened MapSums

  type ProjectId = nat
  type UserId = nat
  type ArtifactId = nat
  type PermitId = nat

  const MAX_ARTIFACTS := 128
  const MAX_BYTES := 256 * 1024 * 1024
  const MAX_ARTIFACT_BYTES := 64 * 1024 * 1024
  const DAY := 86400

  datatype Kind = Assistant | Render

  datatype Artifact = Artifact(project: ProjectId, size: nat)

  datatype Permit = Permit(user: UserId, kind: Kind, project: Option<ProjectId>, expiresAt: nat, bytes: nat, count: nat)

  datatype Scope = User(user: UserId) | Global

  datatype UsageKey = UsageKey(scope: Scope, kind: Kind, day: nat)

  datatype Usage = Usage(requests: nat, tokens: nat)

  datatype Tables = Tables(artifacts: map<ArtifactId, Artifact>, permits: map<PermitId, Permit>, usage: map<UsageKey, Usage>)

  datatype Limits = Limits(
    userConcurrency: nat, globalConcurrency: nat,
    userRequests: nat, globalRequests: nat,
    userTokens: nat, globalTokens: nat,
    timeoutMs: nat)

  datatype Request = Request(user: UserId, kind: Kind, tokens: nat, project: Option<ProjectId>, bytes: nat, count: nat)

  datatype Error = InvalidBudget | ProviderBusy | DailyBudget | ArtifactCapacity | ArtifactSize | Unauthorized | NotFound | Referenced

  // ---------- what the tables add up to ----------

  function CountIn(project: ProjectId): (ArtifactId, Artifact) -> nat {
    (id: ArtifactId, a: Artifact) => if a.project == project then 1 else 0
  }

  function BytesIn(project: ProjectId): (ArtifactId, Artifact) -> nat {
    (id: ArtifactId, a: Artifact) => if a.project == project then a.size else 0
  }

  function ReservedCount(project: ProjectId, now: nat): (PermitId, Permit) -> nat {
    (id: PermitId, p: Permit) => if p.project == Some(project) && p.expiresAt > now then p.count else 0
  }

  function ReservedBytes(project: ProjectId, now: nat): (PermitId, Permit) -> nat {
    (id: PermitId, p: Permit) => if p.project == Some(project) && p.expiresAt > now then p.bytes else 0
  }

  function LiveOf(kind: Kind, now: nat): (PermitId, Permit) -> nat {
    (id: PermitId, p: Permit) => if p.kind == kind && p.expiresAt > now then 1 else 0
  }

  function LiveOfUser(kind: Kind, user: UserId, now: nat): (PermitId, Permit) -> nat {
    (id: PermitId, p: Permit) => if p.kind == kind && p.user == user && p.expiresAt > now then 1 else 0
  }

  function RequestsOf(k: UsageKey, u: Usage, kind: Kind, day: nat): nat {
    if k.scope.User? && k.kind == kind && k.day == day then u.requests else 0
  }

  function TokensOf(k: UsageKey, u: Usage, kind: Kind, day: nat): nat {
    if k.scope.User? && k.kind == kind && k.day == day then u.tokens else 0
  }

  function UserRequests(kind: Kind, day: nat): (UsageKey, Usage) -> nat {
    (k: UsageKey, u: Usage) => RequestsOf(k, u, kind, day)
  }

  function UserTokens(kind: Kind, day: nat): (UsageKey, Usage) -> nat {
    (k: UsageKey, u: Usage) => TokensOf(k, u, kind, day)
  }

  ghost function Holdings(t: Tables, project: ProjectId, now: nat): nat {
    Sum(t.artifacts, CountIn(project)) + Sum(t.permits, ReservedCount(project, now))
  }

  ghost function Occupancy(t: Tables, project: ProjectId, now: nat): nat {
    Sum(t.artifacts, BytesIn(project)) + Sum(t.permits, ReservedBytes(project, now))
  }

  // ---------- operations ----------

  function Live(permits: map<PermitId, Permit>, now: nat): map<PermitId, Permit> {
    map id | id in permits && permits[id].expiresAt > now :: permits[id]
  }

  function Recent(usage: map<UsageKey, Usage>, day: nat): map<UsageKey, Usage> {
    map k | k in usage && !(k.day < day - 32) :: usage[k]
  }

  function Used(usage: map<UsageKey, Usage>, key: UsageKey): Usage {
    if key in usage then usage[key] else Usage(0, 0)
  }

  predicate OverBudget(u: Usage, tokens: nat, requestLimit: nat, tokenLimit: nat) {
    u.requests + 1 > requestLimit || u.tokens + tokens > tokenLimit
  }

  function Charge(usage: map<UsageKey, Usage>, key: UsageKey, tokens: nat): map<UsageKey, Usage> {
    usage[key := Usage(Used(usage, key).requests + 1, Used(usage, key).tokens + tokens)]
  }

  function Expiry(limits: Limits, now: nat): nat {
    now + (limits.timeoutMs + 999) / 1000 + 30
  }

  function PermitFor(limits: Limits, q: Request, now: nat): Permit {
    Permit(q.user, q.kind, q.project, Expiry(limits, now), q.bytes, q.count)
  }

  function Purged(t: Tables, now: nat): Tables {
    t.(permits := Live(t.permits, now), usage := Recent(t.usage, now / DAY))
  }

  /** The checks of an admission, on tables that hold no expired rows. */
  ghost function Checked(t: Tables, limits: Limits, q: Request, now: nat): Option<Error> {
    if Sum(t.permits, LiveOf(q.kind, now)) >= limits.globalConcurrency
       || Sum(t.permits, LiveOfUser(q.kind, q.user, now)) >= limits.userConcurrency then Some(ProviderBusy)
    else if OverBudget(Used(t.usage, UsageKey(User(q.user), q.kind, now / DAY)), q.tokens, limits.userRequests, limits.userTokens)
         || OverBudget(Used(t.usage, UsageKey(Global, q.kind, now / DAY)), q.tokens, limits.globalRequests, limits.globalTokens)
      then Some(DailyBudget)
    else if q.project.Some? && (q.count > 0 || q.bytes > 0)
         && (Holdings(t, q.project.value, now) + q.count > MAX_ARTIFACTS || Occupancy(t, q.project.value, now) + q.bytes > MAX_BYTES)
      then Some(ArtifactCapacity)
    else None
  }

  ghost function Refusal(t: Tables, limits: Limits, q: Request, now: nat): Option<Error> {
    if q.tokens < 1 then Some(InvalidBudget) else Checked(Purged(t, now), limits, q, now)
  }

  function Charged(usage: map<UsageKey, Usage>, q: Request, day: nat): map<UsageKey, Usage> {
    Charge(Charge(usage, UsageKey(User(q.user), q.kind, day), q.tokens), UsageKey(Global, q.kind, day), q.tokens)
  }

  function Admitted(t: Tables, limits: Limits, q: Request, id: PermitId, now: nat): Tables {
    Tables(t.artifacts, Purged(t, now).permits[id := PermitFor(limits, q, now)], Charged(Purged(t, now).usage, q, now / DAY))
  }

  /** A refused request leaves the tables as they were. */
  ghost function Admit(t: Tables, limits: Limits, q: Request, id: PermitId, now: nat): (Tables, Option<Error>) {
    if Refusal(t, limits, q, now).Some? then (t, Refusal(t, limits, q, now)) else (Admitted(t, limits, q, id, now), None)
  }

  function Release(t: Tables, id: PermitId): Tables {
    t.(permits := t.permits - {id})
  }

  ghost predicate NoRoom(t: Tables, project: ProjectId, size: nat, now: nat) {
    Holdings(t, project, now) >= MAX_ARTIFACTS || Occupancy(t, project, now) + size > MAX_BYTES
  }

  ghost function Create(t: Tables, id: ArtifactId, project: ProjectId, size: nat, authorized: bool, now: nat): (Tables, Option<Error>) {
    if size == 0 || size > MAX_ARTIFACT_BYTES then (t, Some(ArtifactSize))
    else if !authorized then (t, Some(Unauthorized))
    else if NoRoom(t, project, size, now) then (t, Some(ArtifactCapacity))
    else (t.(artifacts := t.artifacts[id := Artifact(project, size)]), None)
  }

  /** `referenced`: by a snapshot, a native job or a render job. */
  function Remove(t: Tables, id: ArtifactId, project: ProjectId, authorized: bool, referenced: bool): (Tables, Option<Error>) {
    if !authorized then (t, Some(Unauthorized))
    else if id !in t.artifacts || t.artifacts[id].project != project then (t, Some(NotFound))
    else if referenced then (t, Some(Referenced))
    else (t.(artifacts := t.artifacts - {id}), None)
  }

  // ---------- stored artifacts and live reservations share the capacity ----------

  ghost predicate Fits(t: Tables, project: ProjectId, now: nat) {
    Holdings(t, project, now) <= MAX_ARTIFACTS && Occupancy(t, project, now) <= MAX_BYTES
  }

  ghost predicate WithinCapacity(t: Tables, now: nat) {
    forall p :: Fits(t, p, now)
  }

  lemma TimeFreesCapacity(t: Tables, project: ProjectId, now: nat, later: nat)
    requires now <= later
    ensures Holdings(t, project, later) <= Holdings(t, project, now) && Occupancy(t, project, later) <= Occupancy(t, project, now)
  {
    SumAtMost(t.permits, ReservedCount(project, later), ReservedCount(project, now));
    SumAtMost(t.permits, ReservedBytes(project, later), ReservedBytes(project, now));
  }

  lemma ExpiredReserveNothing(t: Tables, project: ProjectId, now: nat)
    ensures var swept := t.(permits := Live(t.permits, now));
      Holdings(swept, project, now) == Holdings(t, project, now) && Occupancy(swept, project, now) == Occupancy(t, project, now)
  {
    SumDrop(t.permits, Live(t.permits, now), ReservedCount(project, now));
    SumDrop(t.permits, Live(t.permits, now), ReservedBytes(project, now));
  }

  lemma AdmitFits(t: Tables, limits: Limits, q: Request, id: PermitId, now: nat, project: ProjectId)
    requires Fits(t, project, now) && id !in t.permits
    ensures Fits(Admit(t, limits, q, id, now).0, project, now)
  {
    ExpiredReserveNothing(t, project, now);
    SumAdd(Live(t.permits, now), id, PermitFor(limits, q, now), ReservedCount(project, now));
    SumAdd(Live(t.permits, now), id, PermitFor(limits, q, now), ReservedBytes(project, now));
  }

  /** Releasing gives back exactly what a live permit reserved. */
  lemma ReleaseGivesBack(t: Tables, id: PermitId, project: ProjectId, now: nat)
    ensures var p := if id in t.permits then t.permits[id] else Permit(0, Assistant, None, 0, 0, 0);
      var mine := p.project == Some(project) && p.expiresAt > now;
      && Holdings(t, project, now) == Holdings(Release(t, id), project, now) + (if mine then p.count else 0)
      && Occupancy(t, project, now) == Occupancy(Release(t, id), project, now) + (if mine then p.bytes else 0)
  {
    if id in t.permits {
      SumRemove(t.permits, id, ReservedCount(project, now));
      SumRemove(t.permits, id, ReservedBytes(project, now));
    } else {
      assert t.permits - {id} == t.permits;
    }
  }

  lemma CreateFits(t: Tables, id: ArtifactId, owner: ProjectId, size: nat, authorized: bool, now: nat, project: ProjectId)
    requires Fits(t, project, now) && id !in t.artifacts
    ensures Fits(Create(t, id, owner, size, authorized, now).0, project, now)
  {
    SumAdd(t.artifacts, id, Artifact(owner, size), CountIn(project));
    SumAdd(t.artifacts, id, Artifact(owner, size), BytesIn(project));
  }

  lemma RemoveFits(t: Tables, id: ArtifactId, owner: ProjectId, authorized: bool, referenced: bool, now: nat, project: ProjectId)
    requires Fits(t, project, now)
    ensures Fits(Remove(t, id, owner, authorized, referenced).0, project, now)
  {
    if id in t.artifacts {
      SumRemove(t.artifacts, id, CountIn(project));
      SumRemove(t.artifacts, id, BytesIn(project));
    }
  }

  /** A live reservation of one artifact is a promise: once it is given up, an artifact of any
      size up to the reserved one can be stored, whatever else happened to the project. */
  lemma ReservationIsRoom(t: Tables, permit: PermitId, project: ProjectId, id: ArtifactId, size: nat, now: nat)
    requires Fits(t, project, now)
    requires permit in t.permits && t.permits[permit].project == Some(project) && now < t.permits[permit].expiresAt
    requires t.permits[permit].count >= 1 && 0 < size <= t.permits[permit].bytes && size <= MAX_ARTIFACT_BYTES
    ensures Create(Release(t, permit), id, project, size, true, now).1 == None
  {
    ReleaseGivesBack(t, permit, project, now);
  }

  /** A permit outlives the provider's deadline by 30 to 31 seconds. */
  lemma PermitOutlivesDeadline(limits: Limits, q: Request, now: nat)
    ensures var left := PermitFor(limits, q, now).expiresAt * 1000 - (now * 1000 + limits.timeoutMs); 30_000 <= left < 31_000
  {
  }

  // ---------- budgets ----------

  ghost predicate UsageBalanced(t: Tables, kind: Kind, day: nat) {
    && Sum(t.usage, UserRequests(kind, day)) == Used(t.usage, UsageKey(Global, kind, day)).requests
    && Sum(t.usage, UserTokens(kind, day)) == Used(t.usage, UsageKey(Global, kind, day)).tokens
  }

  lemma RecentBalanced(t: Tables, now: nat, kind: Kind, day: nat)
    requires UsageBalanced(t, kind, day)
    ensures UsageBalanced(t.(usage := Recent(t.usage, now / DAY)), kind, day)
  {
    var (r, k, f) := (Recent(t.usage, now / DAY), UserRequests(kind, day), UserTokens(kind, day));
    if day < now / DAY - 32 {
      SumAtMost(r, k, (key: UsageKey, u: Usage) => 0);
      SumAtMost(r, f, (key: UsageKey, u: Usage) => 0);
      SumZero(r);
    } else {
      NothingElsewhere(t.usage, r, kind, day);
    }
  }

  lemma {:induction false} SumZero(m: map<UsageKey, Usage>)
    ensures Sum(m, (key: UsageKey, u: Usage) => 0) == 0
    decreases |m|
  {
    if m != map[] { SumZero(m - {Pick(m)}); }
  }

  /** Rows of other days do not count. */
  lemma {:induction false} NothingElsewhere(m: map<UsageKey, Usage>, less: map<UsageKey, Usage>, kind: Kind, day: nat)
    requires forall k :: k in less ==> k in m && less[k] == m[k]
    requires forall k :: k in m && k !in less ==> k.day != day
    ensures Sum(less, UserRequests(kind, day)) == Sum(m, UserRequests(kind, day))
    ensures Sum(less, UserTokens(kind, day)) == Sum(m, UserTokens(kind, day))
  {
    SumDrop(m, less, UserRequests(kind, day));
    SumDrop(m, less, UserTokens(kind, day));
  }

  lemma ChargeAdds(usage: map<UsageKey, Usage>, key: UsageKey, tokens: nat, kind: Kind, day: nat)
    ensures var mine := key.scope.User? && key.kind == kind && key.day == day;
      && Sum(Charge(usage, key, tokens), UserRequests(kind, day)) == Sum(usage, UserRequests(kind, day)) + (if mine then 1 else 0)
      && Sum(Charge(usage, key, tokens), UserTokens(kind, day)) == Sum(usage, UserTokens(kind, day)) + (if mine then tokens else 0)
  {
    var v := Usage(Used(usage, key).requests + 1, Used(usage, key).tokens + tokens);
    SumReplace(usage, key, v, UserRequests(kind, day));
    SumReplace(usage, key, v, UserTokens(kind, day));
    hide Sum;
  }

  /** What users were charged always sums to what the installation was charged. */
  lemma AdmitBalanced(t: Tables, limits: Limits, q: Request, id: PermitId, now: nat, kind: Kind, day: nat)
    requires UsageBalanced(t, kind, day)
    ensures UsageBalanced(Admit(t, limits, q, id, now).0, kind, day)
  {
    if Refusal(t, limits, q, now) == None {
      RecentBalanced(t, now, kind, day);
      var usage, mine, all := Recent(t.usage, now / DAY), UsageKey(User(q.user), q.kind, now / DAY), UsageKey(Global, q.kind, now / DAY);
      ChargeAdds(usage, mine, q.tokens, kind, day);
      ChargeAdds(Charge(usage, mine, q.tokens), all, q.tokens, kind, day);
    }
  }

  /** No day's charge passes the limits, and no more requests run at once than allowed. */
  ghost predicate WithinBudget(t: Tables, limits: Kind -> Limits, now: nat) {
    && (forall k :: k in t.usage ==>
          && t.usage[k].requests <= (if k.scope.User? then limits(k.kind).userRequests else limits(k.kind).globalRequests)
          && t.usage[k].tokens <= (if k.scope.User? then limits(k.kind).userTokens else limits(k.kind).globalTokens))
    && (forall kind :: Sum(t.permits, LiveOf(kind, now)) <= limits(kind).globalConcurrency)
    && (forall kind, user :: Sum(t.permits, LiveOfUser(kind, user, now)) <= limits(kind).userConcurrency)
  }

  lemma AdmitWithinBudget(t: Tables, limits: Kind -> Limits, q: Request, id: PermitId, now: nat)
    requires WithinBudget(t, limits, now) && id !in t.permits
    ensures WithinBudget(Admit(t, limits(q.kind), q, id, now).0, limits, now)
  {
    if Refusal(t, limits(q.kind), q, now) == None {
      var live, permit, after := Live(t.permits, now), PermitFor(limits(q.kind), q, now), Admit(t, limits(q.kind), q, id, now).0;
      forall kind ensures Sum(after.permits, LiveOf(kind, now)) <= limits(kind).globalConcurrency {
        SumDrop(t.permits, live, LiveOf(kind, now));
        SumAdd(live, id, permit, LiveOf(kind, now));
      }
      forall kind, user ensures Sum(after.permits, LiveOfUser(kind, user, now)) <= limits(kind).userConcurrency {
        SumDrop(t.permits, live, LiveOfUser(kind, user, now));
        SumAdd(live, id, permit, LiveOfUser(kind, user, now));
      }
    }
  }

  lemma LaterWithinBudget(t: Tables, limits: Kind -> Limits, now: nat, later: nat)
    requires WithinBudget(t, limits, now) && now <= later
    ensures WithinBudget(t, limits, later)
  {
    forall kind ensures Sum(t.permits, LiveOf(kind, later)) <= limits(kind).globalConcurrency {
      SumAtMost(t.permits, LiveOf(kind, later), LiveOf(kind, now));
    }
    forall kind, user ensures Sum(t.permits, LiveOfUser(kind, user, later)) <= limits(kind).userConcurrency {
      SumAtMost(t.permits, LiveOfUser(kind, user, later), LiveOfUser(kind, user, now));
    }
  }

  lemma ReleaseWithinBudget(t: Tables, limits: Kind -> Limits, id: PermitId, now: nat)
    requires WithinBudget(t, limits, now)
    ensures WithinBudget(Release(t, id), limits, now)
  {
    if id !in t.permits {
      assert t.permits - {id} == t.permits;
    } else {
      forall kind ensures Sum(Release(t, id).permits, LiveOf(kind, now)) <= limits(kind).globalConcurrency {
        SumRemove(t.permits, id, LiveOf(kind, now));
      }
      forall kind, user ensures Sum(Release(t, id).permits, LiveOfUser(kind, user, now)) <= limits(kind).userConcurrency {
        SumRemove(t.permits, id, LiveOfUser(kind, user, now));
      }
    }
  }
}

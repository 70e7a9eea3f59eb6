/** The budget and capacity tables as one store changes them, transaction by transaction. */
module CapacityLedger {
  import opened Wrappers
  import opened MapSums
  import opened Capacity

  class Ledger {
    var artifacts: map<ArtifactId, Artifact>
    var permits: map<PermitId, Permit>
    var usage: map<UsageKey, Usage>

    ghost function View(): Tables
      reads this
    {
      Tables(artifacts, permits, usage)
    }

    constructor ()
      ensures View() == Tables(map[], map[], map[])
    {
      artifacts, permits, usage := map[], map[], map[];
    }

    method ReservedCapacity(project: ProjectId, now: nat) returns (count: nat, bytes: nat)
      ensures count == Sum(permits, ReservedCount(project, now)) && bytes == Sum(permits, ReservedBytes(project, now))
    {
      count := Total(permits, ReservedCount(project, now));
      bytes := Total(permits, ReservedBytes(project, now));
    }

    /** The stored and the reserved together. */
    method Occupied(project: ProjectId, now: nat) returns (count: nat, bytes: nat)
      ensures count == Holdings(View(), project, now) && bytes == Occupancy(View(), project, now)
    {
      var stored := Total(artifacts, CountIn(project));
      var storedBytes := Total(artifacts, BytesIn(project));
      var reserved, reservedBytes := ReservedCapacity(project, now);
      count, bytes := stored + reserved, storedBytes + reservedBytes;
    }

    method Check(limits: Limits, q: Request, now: nat) returns (error: Option<Error>)
      ensures error == Checked(View(), limits, q, now)
    {
      var total := Total(permits, LiveOf(q.kind, now));
      var mine := Total(permits, LiveOfUser(q.kind, q.user, now));
      if total >= limits.globalConcurrency || mine >= limits.userConcurrency { return Some(ProviderBusy); }
      var scopes := [(User(q.user), limits.userRequests, limits.userTokens), (Global, limits.globalRequests, limits.globalTokens)];
      for i := 0 to |scopes|
        invariant forall k :: 0 <= k < i ==>
          !OverBudget(Used(usage, UsageKey(scopes[k].0, q.kind, now / DAY)), q.tokens, scopes[k].1, scopes[k].2)
      {
        var key := UsageKey(scopes[i].0, q.kind, now / DAY);
        var used := if key in usage then usage[key] else Usage(0, 0);
        if used.requests + 1 > scopes[i].1 || used.tokens + q.tokens > scopes[i].2 {
          assert scopes[i] == scopes[0] || scopes[i] == scopes[1];
          return Some(DailyBudget);
        }
      }
      assert !OverBudget(Used(usage, UsageKey(scopes[0].0, q.kind, now / DAY)), q.tokens, scopes[0].1, scopes[0].2);
      assert !OverBudget(Used(usage, UsageKey(scopes[1].0, q.kind, now / DAY)), q.tokens, scopes[1].1, scopes[1].2);
      if q.project.Some? && (q.count > 0 || q.bytes > 0) {
        var count, bytes := Occupied(q.project.value, now);
        if count + q.count > MAX_ARTIFACTS || bytes + q.bytes > MAX_BYTES { return Some(ArtifactCapacity); }
      }
      error := None;
    }

    method Purge(now: nat)
      modifies this`permits, this`usage
      ensures View() == Purged(old(View()), now)
    {
      var day := now / DAY;
      permits := map p | p in permits && !(permits[p].expiresAt <= now) :: permits[p];
      usage := map k | k in usage && !(k.day < day - 32) :: usage[k];
      assert permits == Live(old(permits), now);
    }

    method ChargeScopes(q: Request, day: nat)
      modifies this`usage
      ensures usage == Charged(old(usage), q, day)
    {
      var scopes := [User(q.user), Global];
      var i := 0;
      while i < 2
        invariant 0 <= i <= 2
        invariant i == 0 ==> usage == old(usage)
        invariant i == 1 ==> usage == Charge(old(usage), UsageKey(User(q.user), q.kind, day), q.tokens)
        invariant i == 2 ==> usage == Charged(old(usage), q, day)
      {
        var key := UsageKey(scopes[i], q.kind, day);
        var used := if key in usage then usage[key] else Usage(0, 0);
        usage := usage[key := Usage(used.requests + 1, used.tokens + q.tokens)];
        i := i + 1;
      }
    }

    method AdmitRequest(limits: Limits, q: Request, id: PermitId, now: nat) returns (error: Option<Error>)
      modifies this
      ensures (View(), error) == Admit(old(View()), limits, q, id, now)
    {
      hide Checked, Charged;
      if q.tokens < 1 { return Some(InvalidBudget); }
      var beforePermits, beforeUsage := permits, usage;
      Purge(now);
      ghost var purged := View();
      error := Check(limits, q, now);
      if error.Some? {
        permits, usage := beforePermits, beforeUsage;
        return;
      }
      ChargeScopes(q, now / DAY);
      permits := permits[id := Permit(q.user, q.kind, q.project, Expiry(limits, now), q.bytes, q.count)];
      assert View() == Tables(old(artifacts), purged.permits[id := PermitFor(limits, q, now)], Charged(purged.usage, q, now / DAY));
    }

    method ReleasePermit(id: PermitId)
      modifies this`permits
      ensures View() == Release(old(View()), id)
    {
      permits := permits - {id};
    }

    method CreateArtifact(id: ArtifactId, project: ProjectId, size: nat, authorized: bool, now: nat) returns (error: Option<Error>)
      modifies this`artifacts
      ensures (View(), error) == Create(old(View()), id, project, size, authorized, now)
    {
      if size == 0 || size > MAX_ARTIFACT_BYTES { return Some(ArtifactSize); }
      if !authorized { return Some(Unauthorized); }
      var count, bytes := Occupied(project, now);
      if count >= MAX_ARTIFACTS || bytes + size > MAX_BYTES { return Some(ArtifactCapacity); }
      artifacts := artifacts[id := Artifact(project, size)];
      error := None;
    }

    method DeleteArtifact(id: ArtifactId, project: ProjectId, authorized: bool, referenced: bool) returns (error: Option<Error>)
      modifies this`artifacts
      ensures (View(), error) == Remove(old(View()), id, project, authorized, referenced)
    {
      if !authorized { return Some(Unauthorized); }
      if id !in artifacts || artifacts[id].project != project { return Some(NotFound); }
      if referenced { return Some(Referenced); }
      artifacts := artifacts - {id};
      error := None;
    }
  }
}

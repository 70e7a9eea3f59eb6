/** The worker's side of a result: check it, split every artifact into 256 KiB parts,
    renew the lease between artifacts, complete. All other parties act in between. */
module WorkerClient {
  import opened NativeJobs
  import opened Numbers
  import opened WorkerAuthority
  import opened WorkerInvariants
  import opened WorkerRuns
  import opened WorkerSafety
  import opened WorkerStaging
  import opened WorkerTraffic
  import opened WorkerUpload
  import opened WorkerUploadRuns
  import opened Wrappers

  /** parseResult's running byte total and set of names decide exactly Acceptable. */
  method ParseResult(artifacts: seq<Output>) returns (ok: bool)
    ensures ok == Acceptable(artifacts)
  {
    hide TotalBytes;
    if |artifacts| < 1 || |artifacts| > MAX_OUTPUTS { return false; }
    assert TotalBytes(artifacts[..0]) == 0 by { EmptyTotal(); }
    var total, names: set<string>, i := 0, {}, 0;
    while i < |artifacts|
      invariant 0 <= i <= |artifacts| && total == TotalBytes(artifacts[..i]) <= MAX_OUTPUT_BYTES
      invariant forall k :: 0 <= k < i ==> Intact(artifacts[k]) && artifacts[k].filename in names
      invariant forall name :: name in names ==> exists k :: 0 <= k < i && artifacts[k].filename == name
      invariant forall k, l :: 0 <= k < l < i ==> artifacts[k].filename != artifacts[l].filename
    {
      var artifact := artifacts[i];
      OneMore(artifacts, i);
      if artifact.filename in names || |artifact.bytes| < 1 { return false; }
      total := total + |artifact.bytes|;
      if total > MAX_OUTPUT_BYTES || artifact.digest != Sha256(artifact.bytes) { return false; }
      names, i := names + {artifact.filename}, i + 1;
    }
    assert artifacts[..i] == artifacts;
    ok := true;
  }

  // ---------- the worker's calls, and what happens between them ----------

  /** The calls of an upload: a renewal before every artifact and before the completion. */
  function Calls(call: Call, artifacts: seq<Output>, room: nat, index: nat): seq<WorldOp>
    decreases if index < |artifacts| then |artifacts| - index else 0, 1
  {
    [RenewRemote(call)] +
    if index < |artifacts| then PartCalls(call, artifacts, room, index, 0) else [CompleteRemote(call, true, room)]
  }

  function PartCalls(call: Call, artifacts: seq<Output>, room: nat, index: nat, sent: nat): seq<WorldOp>
    requires index < |artifacts|
    decreases |artifacts| - index, 0, if sent < |artifacts[index].bytes| then |artifacts[index].bytes| - sent else 0
  {
    if sent >= |artifacts[index].bytes| then Calls(call, artifacts, room, index + 1)
    else [StagePart(call, PartAt(index, artifacts[index], sent))]
         + PartCalls(call, artifacts, room, index, Min(sent + CHUNK, |artifacts[index].bytes|))
  }

  /** Before each of the calls others take their steps; whatever they do, the claim is live
      when the worker acts. */
  ghost predicate Undisturbed(w: World, since: int, g: Grant, calls: seq<WorldOp>, pauses: seq<Pause>)
    decreases |calls|
  {
    calls == [] ||
    (pauses != [] && Harmless(w, since, pauses[0], g)
     && Undisturbed(WorldStep(Played(w, pauses[0].steps), calls[0], pauses[0].at), pauses[0].at, g, calls[1..], pauses[1..]))
  }

  /** The grant belongs to the worker, and its own lookups stand. */
  ghost predicate Entitled(w: World, since: int, call: Call) {
    && call.grant in w.grants && call.grant.expiresAt <= since + GRANT_SECONDS
    && call.worker == call.grant.worker && call.scoped && call.authorized
  }

  /** The authority stands at an instant from which the remaining calls are undisturbed. */
  ghost predicate Under(a: Authority, since: int, call: Call, calls: seq<WorldOp>, pauses: seq<Pause>)
    reads a, a.store
  {
    a.Valid() && a.store.clock <= since && Entitled(a.Model(), since, call) && Undisturbed(a.Model(), since, call.grant, calls, pauses)
  }

  /** The pause before the next call is over: the claim opens and its rows are as they were. */
  lemma PauseOver(w: World, since: int, call: Call, first: WorldOp, rest: seq<WorldOp>, pauses: seq<Pause>)
    requires WorldInv(w, since) && Entitled(w, since, call) && Undisturbed(w, since, call.grant, [first] + rest, pauses)
    ensures pauses != [] && since <= pauses[0].at && Harmless(w, since, pauses[0], call.grant)
    ensures var v := Played(w, pauses[0].steps);
      && WorldInv(v, pauses[0].at) && Enter(v, call, pauses[0].at).1 == None && SameAttempt(w, v, call.grant.ticket)
      && Entitled(v, pauses[0].at, call)
      && Undisturbed(WorldStep(v, first, pauses[0].at), pauses[0].at, call.grant, rest, pauses[1..])
  {
    hide WorldInv, WorldStep, OfOthers, LiveClaim, SameAttempt, Played, Enter;
    assert ([first] + rest)[1..] == rest;
    HarmlessKeeps(w, since, pauses[0], call.grant);
    LiveEnters(Played(w, pauses[0].steps), call, pauses[0].at);
  }

  /** A renewal of an open claim succeeds and touches no staged row. */
  lemma RenewalReplies(w: World, call: Call, now: int)
    requires Enter(w, call, now).1 == None
    ensures var (after, reply) := RemoteRenew(w, call, now); reply == Ok(true) && after.rows == w.rows && after.grants == w.grants
  {
    ActiveChangesNothing(w, call, now);
  }

  // ---------- the upload loop ----------

  method CheckLease(a: Authority, call: Call, ghost rest: seq<WorldOp>, pauses: seq<Pause>, ghost since: int) returns (active: bool)
    requires Under(a, since, call, [RenewRemote(call)] + rest, pauses)
    modifies a, a.store
    ensures active && pauses != [] && Under(a, pauses[0].at, call, rest, pauses[1..])
    ensures SameAttempt(old(a.Model()), a.Model(), call.grant.ticket)
  {
    hide WorldInv, Enter, RemoteRenew, Harmless, Undisturbed, SameAttempt, Played;
    WorldInvLater(a.Model(), a.store.clock, since);
    ghost var w := a.Model();
    PauseOver(w, since, call, RenewRemote(call), rest, pauses);
    Others(a, pauses[0], call.grant, since);
    ghost var v := a.Model();
    RenewalReplies(v, call, pauses[0].at);
    var reply := a.RenewClaim(call, pauses[0].at);
    SameRows(w, v, a.Model(), call.grant.ticket);
    active := reply == Ok(true);
  }

  lemma SameRows(w: World, v: World, after: World, c: Ticket)
    requires SameAttempt(w, v, c) && after.rows == v.rows
    ensures SameAttempt(w, after, c)
  {
    forall i | 0 <= i < MAX_OUTPUTS ensures SameRow(w, after, Key(c.id, c.token, i)) {
      assert SameRow(w, v, Key(c.id, c.token, i));
    }
  }

  method SendPart(a: Authority, call: Call, artifacts: seq<Output>, index: nat, offset: nat,
                  ghost rest: seq<WorldOp>, pauses: seq<Pause>, ghost since: int)
    returns (ok: bool)
    requires Acceptable(artifacts) && index < |artifacts| && offset < |artifacts[index].bytes|
    requires Under(a, since, call, [StagePart(call, PartAt(index, artifacts[index], offset))] + rest, pauses)
    requires Uploaded(a.rows, call.grant.ticket, artifacts, index, offset)
    modifies a, a.store
    ensures ok && pauses != [] && Under(a, pauses[0].at, call, rest, pauses[1..])
    ensures Uploaded(a.rows, call.grant.ticket, artifacts, index, Min(offset + CHUNK, |artifacts[index].bytes|))
  {
    hide WorldInv, Enter, Stage, Harmless, Undisturbed, SameAttempt, Played, Uploaded, Acceptable;
    WorldInvLater(a.Model(), a.store.clock, since);
    ghost var w := a.Model();
    var part := PartAt(index, artifacts[index], offset);
    PauseOver(w, since, call, StagePart(call, part), rest, pauses);
    Others(a, pauses[0], call.grant, since);
    ghost var v := a.Model();
    SameUpload(w, v, call.grant.ticket, artifacts, index, offset);
    PartAccepted(v, call, artifacts, index, offset, pauses[0].at);
    var reply := a.StageOutput(call, part, pauses[0].at);
    ok := reply == Ok(offset + |part.bytes|);
  }

  method UploadArtifact(a: Authority, call: Call, artifacts: seq<Output>, index: nat, room: nat, pauses: seq<Pause>, ghost since: int)
    returns (ok: bool, turn: nat, ghost now: int)
    requires Acceptable(artifacts) && index < |artifacts|
    requires Under(a, since, call, PartCalls(call, artifacts, room, index, 0), pauses)
    requires Uploaded(a.rows, call.grant.ticket, artifacts, index, 0)
    modifies a, a.store
    ensures ok && turn <= |pauses| && Under(a, now, call, Calls(call, artifacts, room, index + 1), pauses[turn..])
    ensures Uploaded(a.rows, call.grant.ticket, artifacts, index + 1, 0)
  {
    hide Under, Uploaded, Acceptable, Calls;
    var artifact, offset := artifacts[index], 0;
    OneArtifact(artifacts, index);
    turn, now := 0, since;
    assert pauses[0..] == pauses;
    while offset < |artifact.bytes|
      invariant turn <= |pauses|
      invariant Under(a, now, call, PartCalls(call, artifacts, room, index, Min(offset, |artifact.bytes|)), pauses[turn..])
      invariant Uploaded(a.rows, call.grant.ticket, artifacts, index, Min(offset, |artifact.bytes|))
    {
      ghost var rest := PartCalls(call, artifacts, room, index, Min(offset + CHUNK, |artifact.bytes|));
      ok := SendPart(a, call, artifacts, index, offset, rest, pauses[turn..], now);
      if !ok { return false, turn, now; }
      now := pauses[turn].at;
      assert pauses[turn..][1..] == pauses[turn + 1..];
      offset, turn := offset + CHUNK, turn + 1;
    }
    NextArtifact(a.rows, call.grant.ticket, artifacts, index);
    ok := true;
  }

  lemma ShownMeansSucceeded(w: World, now: int, id: JobId)
    requires WorldInv(w, now) && id in w.table.published
    ensures id in w.table.jobs && w.table.jobs[id].state.Succeeded?
  {
  }

  method CompleteUpload(a: Authority, call: Call, artifacts: seq<Output>, room: nat, pauses: seq<Pause>, ghost since: int) returns (ok: bool)
    requires Acceptable(artifacts) && |artifacts| <= room
    requires Under(a, since, call, [CompleteRemote(call, true, room)], pauses)
    requires Uploaded(a.rows, call.grant.ticket, artifacts, |artifacts|, 0)
    modifies a, a.store
    ensures ok && a.Valid()
    ensures call.grant.ticket.id in a.store.published && a.store.published[call.grant.ticket.id] == artifacts
    ensures call.grant.ticket.id in a.store.jobs && a.store.jobs[call.grant.ticket.id].state.Succeeded?
  {
    hide WorldInv, Enter, Complete, Harmless, Undisturbed, SameAttempt, Played, Uploaded, Acceptable;
    WorldInvLater(a.Model(), a.store.clock, since);
    ghost var w := a.Model();
    assert [CompleteRemote(call, true, room)] + [] == [CompleteRemote(call, true, room)];
    PauseOver(w, since, call, CompleteRemote(call, true, room), [], pauses);
    Others(a, pauses[0], call.grant, since);
    SameUpload(w, a.Model(), call.grant.ticket, artifacts, |artifacts|, 0);
    CompletionReturns(a.Model(), call, artifacts, room, pauses[0].at);
    var reply := a.CompleteJob(call, true, room, pauses[0].at);
    ShownMeansSucceeded(a.Model(), a.store.clock, call.grant.ticket.id);
    ok := reply == Ok(true);
  }

  /** However others act before each call, a worker whose claim is live at its calls ends with
      the job's outputs being exactly the artifacts, in order and byte for byte. */
  method Publish(a: Authority, call: Call, artifacts: seq<Output>, room: nat, pauses: seq<Pause>, ghost since: int) returns (ok: bool)
    requires Acceptable(artifacts) ==> Under(a, since, call, Calls(call, artifacts, room, 0), pauses)
    requires a.Valid() && Uploaded(a.rows, call.grant.ticket, [], 0, 0)
    requires |artifacts| <= room
    modifies a, a.store
    ensures a.Valid() && ok == Acceptable(artifacts)
    ensures ok ==> call.grant.ticket.id in a.store.published && a.store.published[call.grant.ticket.id] == artifacts
    ensures ok ==> call.grant.ticket.id in a.store.jobs && a.store.jobs[call.grant.ticket.id].state.Succeeded?
  {
    hide WorldInv, Under, Uploaded, Acceptable, SameAttempt;
    var acceptable := ParseResult(artifacts);
    if !acceptable { return false; }
    NothingUploaded(a.rows, call.grant.ticket, artifacts);
    var index, turn := 0, 0;
    ghost var now := since;
    assert pauses[0..] == pauses;
    while index < |artifacts|
      invariant 0 <= index <= |artifacts| && turn <= |pauses|
      invariant Under(a, now, call, Calls(call, artifacts, room, index), pauses[turn..])
      invariant Uploaded(a.rows, call.grant.ticket, artifacts, index, 0)
    {
      ghost var w := a.Model();
      var active := CheckLease(a, call, PartCalls(call, artifacts, room, index, 0), pauses[turn..], now);
      if !active { return false; }
      SameUpload(w, a.Model(), call.grant.ticket, artifacts, index, 0);
      assert pauses[turn..][1..] == pauses[turn + 1..];
      var used: nat;
      ok, used, now := UploadArtifact(a, call, artifacts, index, room, pauses[turn + 1..], pauses[turn].at);
      if !ok { return false; }
      assert pauses[turn + 1..][used..] == pauses[turn + 1 + used..];
      index, turn := index + 1, turn + 1 + used;
    }
    ghost var w := a.Model();
    var active := CheckLease(a, call, [CompleteRemote(call, true, room)], pauses[turn..], now);
    if !active { return false; }
    SameUpload(w, a.Model(), call.grant.ticket, artifacts, |artifacts|, 0);
    assert pauses[turn..][1..] == pauses[turn + 1..];
    ok := CompleteUpload(a, call, artifacts, room, pauses[turn + 1..], pauses[turn].at);
  }
}

/** Uploads within whole runs: whatever all other parties do between the parts a worker
    sends, a claim that is still live at its completion publishes exactly its artifacts. */
module WorkerUploadRuns {
  import opened NativeJobRuns
  import opened NativeJobs
  import opened Numbers
  import opened WorkerInvariants
  import opened WorkerRuns
  import opened WorkerSafety
  import opened WorkerStaging
  import opened WorkerUpload
  import opened Wrappers

  // ---------- what one step of others leaves alone ----------

  lemma GrantsStay(w: World, op: WorldOp, now: int)
    ensures w.grants <= WorldStep(w, op, now).grants
  {
    hide Resolve, Claim, Fail, Finish, Renew, Step, Collect, StagedBytes, StagedCount, Accept;
  }

  lemma GrantIsDrawn(w: World, g: Grant, now: int)
    requires WorldInv(w, now) && g in w.grants
    ensures g.ticket.token in w.table.drawnTokens && g.ticket.id in w.table.drawnIds
  {
    assert GrantOk(w, g);
  }

  lemma LiveSooner(t: Table, c: Ticket, now: int, earlier: int)
    requires LiveClaim(t, c.id, c.token, now) && earlier <= now
    ensures LiveClaim(t, c.id, c.token, earlier)
  {
  }

  lemma StepSparesAttempt(w: World, op: WorldOp, g: Grant, now: int)
    requires WorldInv(w, now) && WorldFresh(w, op) && g in w.grants && !StagesUnder(op, g.ticket.token)
    requires LiveClaim(WorldStep(w, op, now).table, g.ticket.id, g.ticket.token, now)
    ensures SameAttempt(w, WorldStep(w, op, now), g.ticket)
  {
    hide WorldStep, WorldInv, WorldFresh, LiveClaim, SameRow;
    GrantIsDrawn(w, g, now);
    forall i | 0 <= i < MAX_OUTPUTS ensures SameRow(w, WorldStep(w, op, now), Key(g.ticket.id, g.ticket.token, i)) {
      OthersKeepAttempt(w, op, now, g.ticket, i);
    }
  }

  /** A live claim opens for the worker it was granted to. */
  lemma LiveEnters(w: World, call: Call, now: int)
    requires WorldInv(w, now) && call.grant in w.grants && call.grant.expiresAt <= now + GRANT_SECONDS
    requires call.worker == call.grant.worker && call.scoped && call.authorized
    requires LiveClaim(w.table, call.grant.ticket.id, call.grant.ticket.token, now)
    ensures Enter(w, call, now).1 == None && call.grant.expiresAt > now
  {
    assert GrantOk(w, call.grant);
  }

  // ---------- a live claim was live ever since it was made ----------

  lemma {:induction false} GrantStays(run: WorldRun, i: nat, k: nat, g: Grant)
    requires i <= k <= |run| && g in WorldAt(run, i).grants
    ensures g in WorldAt(run, k).grants
    decreases k
  {
    hide WorldStep;
    if i < k {
      GrantStays(run, i, k - 1, g);
      GrantsStay(WorldAt(run, k - 1), run[k - 1].op, run[k - 1].at);
    }
  }

  lemma {:induction false} LiveSince(run: WorldRun, i: nat, k: nat, g: Grant)
    requires WorldLegal(run) && i <= k < |run| && g in WorldAt(run, i).grants
    requires LiveClaim(WorldAt(run, k).table, g.ticket.id, g.ticket.token, run[k].at)
    ensures LiveClaim(WorldAt(run, i).table, g.ticket.id, g.ticket.token, run[i].at)
    decreases k - i
  {
    hide WorldStep, WorldInv, LiveClaim;
    if i < k {
      var w := WorldAt(run, i);
      GrantsStay(w, run[i].op, run[i].at);
      LiveSince(run, i + 1, k, g);
      LiveSooner(WorldAt(run, i + 1).table, g.ticket, run[i + 1].at, run[i].at);
      WorldReachable(run, i, run[i].at);
      assert WorldFreshAt(run, i);
      GrantIsDrawn(w, g, run[i].at);
      LiveBeforeStep(w, run[i].op, run[i].at, g.ticket);
    }
  }

  // ---------- the parts of an upload, in order ----------

  /** What the worker sends from byte `sent` of artifact `index` on. */
  function UploadOps(call: Call, artifacts: seq<Output>, index: nat, sent: nat): seq<WorldOp>
    decreases if index < |artifacts| then |artifacts| - index else 0, if index < |artifacts| then |artifacts[index].bytes| - sent else 0
  {
    if index >= |artifacts| then []
    else if sent >= |artifacts[index].bytes| then UploadOps(call, artifacts, index + 1, 0)
    else [StagePart(call, PartAt(index, artifacts[index], sent))]
         + UploadOps(call, artifacts, index, Min(sent + CHUNK, |artifacts[index].bytes|))
  }

  /** The parts staged under a token by the steps from i up to k. */
  function OwnOps(run: WorldRun, i: nat, k: nat, token: Token): seq<WorldOp>
    requires i <= k <= |run|
    decreases k - i
  {
    if i == k then []
    else (if StagesUnder(run[i].op, token) then [run[i].op] else []) + OwnOps(run, i + 1, k, token)
  }

  /** The run up to step `done` carries out what is left of the upload, and the claim is live there. */
  ghost predicate Uploading(run: WorldRun, i: nat, done: nat, call: Call, artifacts: seq<Output>, index: nat, sent: nat) {
    && WorldLegal(run) && i <= done < |run| && Acceptable(artifacts)
    && call.grant in WorldAt(run, i).grants && call.grant.expiresAt <= run[i].at + GRANT_SECONDS
    && call.worker == call.grant.worker && call.scoped && call.authorized
    && LiveClaim(WorldAt(run, done).table, call.grant.ticket.id, call.grant.ticket.token, run[done].at)
    && (if index < |artifacts| then sent <= |artifacts[index].bytes| else sent == 0)
    && Uploaded(WorldAt(run, i).rows, call.grant.ticket, artifacts, index, sent)
    && OwnOps(run, i, done, call.grant.ticket.token) == UploadOps(call, artifacts, index, sent)
  }

  lemma StepFacts(run: WorldRun, i: nat, done: nat, g: Grant)
    requires WorldLegal(run) && i < done < |run| && g in WorldAt(run, i).grants
    requires LiveClaim(WorldAt(run, done).table, g.ticket.id, g.ticket.token, run[done].at)
    ensures WorldAt(run, i + 1) == WorldStep(WorldAt(run, i), run[i].op, run[i].at)
    ensures WorldInv(WorldAt(run, i), run[i].at) && WorldFresh(WorldAt(run, i), run[i].op)
    ensures g in WorldAt(run, i + 1).grants && run[i].at <= run[i + 1].at
    ensures LiveClaim(WorldAt(run, i).table, g.ticket.id, g.ticket.token, run[i].at)
    ensures LiveClaim(WorldAt(run, i + 1).table, g.ticket.id, g.ticket.token, run[i].at)
  {
    hide WorldStep, WorldInv, LiveClaim, WorldFresh;
    GrantsStay(WorldAt(run, i), run[i].op, run[i].at);
    WorldReachable(run, i, run[i].at);
    assert WorldFreshAt(run, i);
    LiveSince(run, i, done, g);
    LiveSince(run, i + 1, done, g);
    LiveSooner(WorldAt(run, i + 1).table, g.ticket, run[i + 1].at, run[i].at);
  }

  lemma StrangeStep(run: WorldRun, i: nat, done: nat, call: Call, artifacts: seq<Output>, index: nat, sent: nat)
    requires Uploading(run, i, done, call, artifacts, index, sent) && i < done
    requires !StagesUnder(run[i].op, call.grant.ticket.token)
    ensures Uploading(run, i + 1, done, call, artifacts, index, sent)
  {
    hide WorldStep, WorldInv, WorldFresh, LiveClaim, WorldAt, WorldLegal, Uploaded, Acceptable, UploadOps, SameAttempt;
    StepFacts(run, i, done, call.grant);
    StepSparesAttempt(WorldAt(run, i), run[i].op, call.grant, run[i].at);
    SameUpload(WorldAt(run, i), WorldAt(run, i + 1), call.grant.ticket, artifacts, index, sent);
    assert [] + OwnOps(run, i + 1, done, call.grant.ticket.token) == OwnOps(run, i + 1, done, call.grant.ticket.token);
  }

  lemma OwnStep(run: WorldRun, i: nat, done: nat, call: Call, artifacts: seq<Output>, index: nat, sent: nat)
    requires Uploading(run, i, done, call, artifacts, index, sent) && i < done
    requires StagesUnder(run[i].op, call.grant.ticket.token) && index < |artifacts| && sent < |artifacts[index].bytes|
    ensures Uploading(run, i + 1, done, call, artifacts, index, Min(sent + CHUNK, |artifacts[index].bytes|))
  {
    hide WorldInv, WorldFresh, LiveClaim, WorldAt, WorldLegal, Uploaded, Acceptable, Enter, Stage;
    StepFacts(run, i, done, call.grant);
    var own := OwnOps(run, i, done, call.grant.ticket.token);
    var part := PartAt(index, artifacts[index], sent);
    assert own[0] == run[i].op == StagePart(call, part);
    assert own[1..] == OwnOps(run, i + 1, done, call.grant.ticket.token);
    LiveEnters(WorldAt(run, i), call, run[i].at);
    PartAccepted(WorldAt(run, i), call, artifacts, index, sent, run[i].at);
  }

  /** From any point of an upload on, the rows of the attempt end up complete. */
  lemma {:induction false} UploadCompletes(run: WorldRun, i: nat, done: nat, call: Call, artifacts: seq<Output>, index: nat, sent: nat)
    requires Uploading(run, i, done, call, artifacts, index, sent)
    ensures Uploaded(WorldAt(run, done).rows, call.grant.ticket, artifacts, |artifacts|, 0)
    decreases done - i, |artifacts| - index
  {
    hide WorldAt, WorldLegal, LiveClaim, Acceptable, SlotOk, OwnOps, Uploading;
    UploadingParts(run, i, done, call, artifacts, index, sent);
    if index < |artifacts| && sent == |artifacts[index].bytes| {
      NextUploading(run, i, done, call, artifacts, index);
      UploadCompletes(run, i, done, call, artifacts, index + 1, 0);
    } else if i < done && StagesUnder(run[i].op, call.grant.ticket.token) {
      OwnStep(run, i, done, call, artifacts, index, sent);
      UploadCompletes(run, i + 1, done, call, artifacts, index, Min(sent + CHUNK, |artifacts[index].bytes|));
    } else if i < done {
      StrangeStep(run, i, done, call, artifacts, index, sent);
      UploadCompletes(run, i + 1, done, call, artifacts, index, sent);
    }
  }

  lemma UploadingParts(run: WorldRun, i: nat, done: nat, call: Call, artifacts: seq<Output>, index: nat, sent: nat)
    requires Uploading(run, i, done, call, artifacts, index, sent)
    ensures i <= done < |run| && index <= |artifacts|
    ensures Uploaded(WorldAt(run, i).rows, call.grant.ticket, artifacts, index, sent)
    ensures if index < |artifacts| then sent <= |artifacts[index].bytes| else sent == 0
    ensures i < done && StagesUnder(run[i].op, call.grant.ticket.token) ==> index < |artifacts|
    ensures i == done ==> index == |artifacts| || sent == |artifacts[index].bytes|
  {
    hide WorldAt, WorldLegal, LiveClaim, Acceptable, SlotOk;
  }

  lemma NextUploading(run: WorldRun, i: nat, done: nat, call: Call, artifacts: seq<Output>, index: nat)
    requires index < |artifacts| && Uploading(run, i, done, call, artifacts, index, |artifacts[index].bytes|)
    ensures Uploading(run, i, done, call, artifacts, index + 1, 0)
  {
    hide WorldAt, WorldLegal, LiveClaim, Acceptable, SlotOk, OwnOps;
    NextArtifact(WorldAt(run, i).rows, call.grant.ticket, artifacts, index);
  }

  // ---------- main result ----------

  lemma UnstagedRows(w: World, fewer: map<Key, Row>, token: Token, now: int)
    requires WorldInv(w, now) && token !in w.table.drawnTokens && fewer.Keys <= w.rows.Keys
    ensures forall k :: k in fewer ==> k.token != token
  {
    forall k | k in fewer ensures k.token != token {
      assert Granted(w, k);
      var g :| g in w.grants && g.ticket.id == k.job && g.ticket.token == k.token && k in w.rows && w.rows[k].expiresAt == g.expiresAt;
      assert GrantOk(w, g);
    }
  }

  lemma ClaimGrants(w: World, r: RemoteRequest, g: Grant, artifacts: seq<Output>, now: int)
    requires WorldInv(w, now) && r.token !in w.table.drawnTokens && RemoteClaim(w, r, now).1 == Ok(Some(g))
    ensures g in RemoteClaim(w, r, now).0.grants && g.expiresAt == now + GRANT_SECONDS
    ensures Uploaded(RemoteClaim(w, r, now).0.rows, g.ticket, artifacts, 0, 0)
  {
    ClaimTicket(w.table, AsClaim(r), now);
    UnstagedRows(w, Cleanup(w, now).rows, r.token, now);
    hide Claim, WorldInv, LiveClaim;
    assert g.ticket.token == r.token;
  }

  /** A new claim has a grant of 600 seconds and nothing staged. */
  lemma ClaimBegins(run: WorldRun, claim: nat, g: Grant, artifacts: seq<Output>)
    requires WorldLegal(run) && claim < |run| && run[claim].op.ClaimRemote?
    requires RemoteClaim(WorldAt(run, claim), run[claim].op.r, run[claim].at).1 == Ok(Some(g))
    ensures g in WorldAt(run, claim + 1).grants && g.expiresAt == run[claim].at + GRANT_SECONDS
    ensures Uploaded(WorldAt(run, claim + 1).rows, g.ticket, artifacts, 0, 0)
  {
    hide RemoteClaim, WorldInv, Uploaded;
    WorldReachable(run, claim, run[claim].at);
    assert WorldFreshAt(run, claim);
    ClaimGrants(WorldAt(run, claim), run[claim].op.r, g, artifacts, run[claim].at);
  }

  lemma AtLater(run: WorldRun, i: nat, k: nat)
    requires WorldLegal(run) && i <= k < |run|
    ensures run[i].at <= run[k].at
  {
  }

  /** The worker took up claim `call.grant` at step `claim`, was told no refusal by its own
      lookups, sent the parts of its artifacts in order and nothing else, and completes at
      step `done`. Everyone else did whatever they liked in between, the worker renewed and
      read its input at any time. If the claim is live and uncancelled at the completion,
      the completion succeeds and the job's outputs are the artifacts, in order and byte
      for byte. */
  lemma UploadPublishes(run: WorldRun, claim: nat, done: nat, call: Call, artifacts: seq<Output>)
    requires WorldLegal(run) && claim < done < |run| && Acceptable(artifacts)
    requires run[claim].op.ClaimRemote? && RemoteClaim(WorldAt(run, claim), run[claim].op.r, run[claim].at).1 == Ok(Some(call.grant))
    requires call.worker == call.grant.worker && call.scoped && call.authorized
    requires OwnOps(run, claim + 1, done, call.grant.ticket.token) == UploadOps(call, artifacts, 0, 0)
    requires run[done].op.CompleteRemote? && run[done].op.call == call && run[done].op.bound && |artifacts| <= run[done].op.room
    requires LiveClaim(WorldAt(run, done).table, call.grant.ticket.id, call.grant.ticket.token, run[done].at)
    ensures Publishes(run, done, call.grant.ticket.id)
    ensures call.grant.ticket.id in WorldAt(run, done + 1).table.published
    ensures WorldAt(run, done + 1).table.published[call.grant.ticket.id] == artifacts
  {
    hide WorldAt, WorldInv, LiveClaim, Acceptable, SlotOk, OwnOps, UploadOps, RemoteClaim, Publishes, WorldLegal;
    ClaimBegins(run, claim, call.grant, artifacts);
    AtLater(run, claim, claim + 1);
    UploadCompletes(run, claim + 1, done, call, artifacts, 0, 0);
    CompletesWhole(run, claim + 1, done, call, artifacts);
  }

  lemma CompletesWhole(run: WorldRun, i: nat, done: nat, call: Call, artifacts: seq<Output>)
    requires WorldLegal(run) && i <= done < |run| && Acceptable(artifacts) && call.grant in WorldAt(run, i).grants
    requires call.grant.expiresAt <= run[i].at + GRANT_SECONDS && call.worker == call.grant.worker && call.scoped && call.authorized
    requires run[done].op.CompleteRemote? && run[done].op.call == call && run[done].op.bound && |artifacts| <= run[done].op.room
    requires LiveClaim(WorldAt(run, done).table, call.grant.ticket.id, call.grant.ticket.token, run[done].at)
    requires Uploaded(WorldAt(run, done).rows, call.grant.ticket, artifacts, |artifacts|, 0)
    ensures Publishes(run, done, call.grant.ticket.id)
    ensures call.grant.ticket.id in WorldAt(run, done + 1).table.published
    ensures WorldAt(run, done + 1).table.published[call.grant.ticket.id] == artifacts
  {
    GrantStays(run, i, done, call.grant);
    WorldReachable(run, done, run[done].at);
    assert WorldAt(run, done + 1) == WorldStep(WorldAt(run, done), run[done].op, run[done].at);
    hide WorldAt, WorldInv, LiveClaim, Acceptable, SlotOk, Enter, Complete;
    LiveEnters(WorldAt(run, done), call, run[done].at);
    CompletionReturns(WorldAt(run, done), call, artifacts, run[done].op.room, run[done].at);
  }
}

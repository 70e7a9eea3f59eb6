/** Runs over the workspace tables: what every reachable table satisfies. */
module WorkspaceRuns {
  import opened Wrappers
  import opened Finite
  import opened Workspaces

  datatype Op =
    | SaveOp(at: Place, q: Save, authorized: bool, projectRevision: nat)
    | PruneOp(at: Place, before: nat, authorized: bool)
    | CreateOp(id: ArtifactId, at: Place, authorized: bool, room: bool)
    | DeleteOp(id: ArtifactId, project: ProjectId, authorized: bool)
    | PinOp(job: JobId, at: Place, input: ArtifactId, revision: Option<nat>, sourceRevision: nat)
    | PublishOp(job: JobId, id: ArtifactId)
    | UnpinOp(job: JobId)
    | ShowOp(id: ArtifactId)

  /** Ids are fresh; a publication belongs to a job that exists. */
  predicate Enabled(t: Tables, op: Op) {
    match op
    case CreateOp(id, _, _, _) => id !in t.artifacts
    case PinOp(job, _, _, _, _) => job !in t.pins
    case PublishOp(job, id) => job in t.pins && id !in t.artifacts
    case _ => true
  }

  function Step(t: Tables, op: Op): Tables
    requires Enabled(t, op)
  {
    match op
    case SaveOp(at, q, authorized, projectRevision) => SaveWorkspace(t, at, q, authorized, projectRevision).0
    case PruneOp(at, before, authorized) => PruneHistory(t, at, before, authorized).0
    case CreateOp(id, at, authorized, room) => CreateArtifact(t, id, at, authorized, room).0
    case DeleteOp(id, project, authorized) => DeleteArtifact(t, id, project, authorized).0
    case PinOp(job, at, input, revision, sourceRevision) => PinJob(t, job, at, input, revision, sourceRevision)
    case PublishOp(job, id) => PublishOutput(t, job, id)
    case UnpinOp(job) => UnpinJob(t, job)
    case ShowOp(id) => ShowPicture(t, id)
  }

  // ---------- invariant ----------

  function PlaceOf(k: Key): Place {
    Place(k.project, k.kind)
  }

  predicate SnapshotOk(t: Tables, k: Key)
    requires k in t.snapshots
  {
    var s := t.snapshots[k];
    && 1 <= k.revision <= CurrentRevision(t, PlaceOf(k)) && s.payload !in s.references && Distinct(s.references)
    && Holds(t, s.payload, PlaceOf(k)) && forall a :: a in s.references ==> Holds(t, a, PlaceOf(k))
  }

  predicate PinOk(t: Tables, p: Pin) {
    && Holds(t, p.input, Place(p.project, p.kind)) && (forall a :: a in p.outputs ==> Holds(t, a, Place(p.project, p.kind)))
    && (p.revision.Some? ==> Key(p.project, p.kind, p.revision.value) in t.snapshots)
  }

  /** The row that says which revision is current points at a snapshot. */
  predicate CurrentOk(t: Tables, at: Place)
    requires at in t.current
  {
    Key(at.project, at.kind, t.current[at]) in t.snapshots
  }

  predicate ReferenceOk(t: Tables, r: Reference) {
    r in t.references <==> r.at in t.snapshots && r.artifact in t.snapshots[r.at].references
  }

  ghost predicate Inv(t: Tables) {
    && (forall k :: k in t.snapshots ==> SnapshotOk(t, k))
    && (forall at :: at in t.current ==> CurrentOk(t, at))
    && (forall r :: ReferenceOk(t, r))
    && (forall at :: |Revisions(t.snapshots, at)| <= MAX_HISTORY)
    && (forall j :: j in t.pins ==> PinOk(t, t.pins[j]))
    && (forall id :: id in t.pictures ==> id in t.artifacts)
  }

  lemma CurrentIsMax(t: Tables, at: Place)
    requires Inv(t)
    ensures at in t.current ==> Revisions(t.snapshots, at) != {} && Max(Revisions(t.snapshots, at)) == t.current[at]
    ensures at !in t.current ==> Revisions(t.snapshots, at) == {}
  {
    forall r | r in Revisions(t.snapshots, at) ensures at in t.current && r <= t.current[at] {
      assert SnapshotOk(t, Key(at.project, at.kind, r));
    }
    if at in t.current {
      assert CurrentOk(t, at);
      assert t.current[at] in Revisions(t.snapshots, at);
    }
  }

  /** The error "history is inconsistent" is unreachable: the current revision, when there is
      one, is the newest of the whole history, which is listed completely. */
  lemma StateIsConsistent(t: Tables, at: Place)
    requires Inv(t)
    ensures State(t, at) == Ok(View(if at in t.current then Some(t.current[at]) else None, Descending(Revisions(t.snapshots, at))))
    ensures at in t.current ==> State(t, at).value.history[0] == t.current[at]
  {
    CurrentIsMax(t, at);
    DescendingLists(Revisions(t.snapshots, at));
    assert |Revisions(t.snapshots, at)| <= MAX_HISTORY;
  }

  // ---------- every operation keeps it ----------

  function NextKey(t: Tables, at: Place): Key {
    Key(at.project, at.kind, CurrentRevision(t, at) + 1)
  }

  predicate Savable(t: Tables, at: Place, q: Save) {
    && WellFormed(q) && |Revisions(t.snapshots, at)| < MAX_HISTORY && Backed(t, q, at)
  }

  lemma AcceptedIsSavable(t: Tables, at: Place, q: Save, authorized: bool, projectRevision: nat)
    requires SaveRefusal(t, at, q, authorized, projectRevision) == None
    ensures Savable(t, at, q) && q.base == CurrentRevision(t, at)
  {
  }

  lemma NextIsNew(t: Tables, at: Place)
    requires Inv(t)
    ensures NextKey(t, at) !in t.snapshots
  {
    assert NextKey(t, at) in t.snapshots ==> SnapshotOk(t, NextKey(t, at));
  }

  lemma SavedRows(t: Tables, at: Place, q: Save)
    requires Inv(t) && Savable(t, at, q)
    ensures forall k :: k in Saved(t, at, q).snapshots ==> SnapshotOk(Saved(t, at, q), k)
    ensures forall p :: p in Saved(t, at, q).current ==> CurrentOk(Saved(t, at, q), p)
    ensures forall j :: j in t.pins ==> PinOk(Saved(t, at, q), t.pins[j])
  {
    var after := Saved(t, at, q);
    forall k | k in after.snapshots ensures SnapshotOk(after, k) {
      if k != NextKey(t, at) { assert SnapshotOk(t, k); }
    }
    forall p | p in after.current ensures CurrentOk(after, p) {
      if p != at { assert CurrentOk(t, p); }
    }
    forall j | j in t.pins ensures PinOk(after, t.pins[j]) {
      assert PinOk(t, t.pins[j]);
    }
  }

  lemma SavedReferences(t: Tables, at: Place, q: Save, r: Reference)
    requires Inv(t)
    ensures ReferenceOk(Saved(t, at, q), r)
  {
    NextIsNew(t, at);
    assert ReferenceOk(t, r);
  }

  lemma SavedHistory(t: Tables, at: Place, q: Save, p: Place)
    requires Inv(t) && Savable(t, at, q)
    ensures |Revisions(Saved(t, at, q).snapshots, p)| <= MAX_HISTORY
  {
    if p == at {
      assert Revisions(Saved(t, at, q).snapshots, p) == Revisions(t.snapshots, p) + {NextKey(t, at).revision};
    } else {
      assert Revisions(Saved(t, at, q).snapshots, p) == Revisions(t.snapshots, p);
    }
  }

  lemma SavedKeeps(t: Tables, at: Place, q: Save, authorized: bool, projectRevision: nat)
    requires Inv(t) && SaveRefusal(t, at, q, authorized, projectRevision) == None
    ensures Inv(Saved(t, at, q))
  {
    AcceptedIsSavable(t, at, q, authorized, projectRevision);
    hide SaveRefusal, Savable;
    SavedRows(t, at, q);
    forall r ensures ReferenceOk(Saved(t, at, q), r) {
      SavedReferences(t, at, q, r);
    }
    forall p ensures |Revisions(Saved(t, at, q).snapshots, p)| <= MAX_HISTORY {
      SavedHistory(t, at, q, p);
    }
    hide ReferenceOk, SnapshotOk, PinOk, CurrentOk, Revisions;
  }

  lemma PrunedKeeps(t: Tables, at: Place, before: nat)
    requires Inv(t)
    ensures Inv(Pruned(t, at, before))
  {
    var after := Pruned(t, at, before);
    forall k | k in after.snapshots ensures SnapshotOk(after, k) {
      assert SnapshotOk(t, k);
    }
    forall p | p in after.current ensures CurrentOk(after, p) {
      assert CurrentOk(t, p);
    }
    forall r ensures ReferenceOk(after, r) {
      assert ReferenceOk(t, r);
    }
    forall p ensures |Revisions(after.snapshots, p)| <= MAX_HISTORY {
      SubsetSize(Revisions(after.snapshots, p), Revisions(t.snapshots, p));
    }
    forall j | j in after.pins ensures PinOk(after, after.pins[j]) {
      assert PinOk(t, t.pins[j]);
      if t.pins[j].revision.Some? {
        assert PinsKey(t.pins[j], Key(t.pins[j].project, t.pins[j].kind, t.pins[j].revision.value));
      }
    }
  }

  lemma ArtifactAdded(t: Tables, id: ArtifactId, a: Artifact)
    requires Inv(t) && id !in t.artifacts
    ensures Inv(t.(artifacts := t.artifacts[id := a]))
  {
    var after := t.(artifacts := t.artifacts[id := a]);
    forall k | k in after.snapshots ensures SnapshotOk(after, k) {
      assert SnapshotOk(t, k);
    }
    forall p | p in after.current ensures CurrentOk(after, p) {
      assert CurrentOk(t, p);
    }
    forall r ensures ReferenceOk(after, r) {
      assert ReferenceOk(t, r);
    }
    forall j | j in after.pins ensures PinOk(after, after.pins[j]) {
      assert PinOk(t, t.pins[j]);
    }
  }

  lemma DeleteKeeps(t: Tables, id: ArtifactId, project: ProjectId, authorized: bool)
    requires Inv(t)
    ensures Inv(DeleteArtifact(t, id, project, authorized).0)
  {
    var after := DeleteArtifact(t, id, project, authorized).0;
    if after != t {
      forall k | k in after.snapshots ensures SnapshotOk(after, k) {
        assert SnapshotOk(t, k);
        forall a | a in t.snapshots[k].references ensures Holds(after, a, PlaceOf(k)) {
          assert ReferenceOk(t, Reference(k, a)) && Holds(t, a, PlaceOf(k));
          assert Reference(k, a).at.project == project && Reference(k, a).artifact == id ==> IsReference(t, project, id);
        }
      }
      forall p | p in after.current ensures CurrentOk(after, p) {
        assert CurrentOk(t, p);
      }
      forall r ensures ReferenceOk(after, r) {
        assert ReferenceOk(t, r);
      }
      forall j | j in after.pins ensures PinOk(after, after.pins[j]) {
        assert PinOk(t, t.pins[j]);
      }
    }
  }

  lemma PinsKeep(t: Tables, pins: map<JobId, Pin>)
    requires Inv(t) && forall j :: j in pins ==> PinOk(t, pins[j])
    ensures Inv(t.(pins := pins))
  {
    var after := t.(pins := pins);
    forall k | k in after.snapshots ensures SnapshotOk(after, k) {
      assert SnapshotOk(t, k);
    }
    forall p | p in after.current ensures CurrentOk(after, p) {
      assert CurrentOk(t, p);
    }
    forall r ensures ReferenceOk(after, r) {
      assert ReferenceOk(t, r);
    }
    forall j | j in pins ensures PinOk(after, pins[j]) {
      assert PinOk(t, pins[j]);
    }
  }

  lemma PinsAreOk(t: Tables)
    requires Inv(t)
    ensures forall j :: j in t.pins ==> PinOk(t, t.pins[j])
  {
  }

  lemma ShowKeeps(t: Tables, id: ArtifactId)
    requires Inv(t)
    ensures Inv(ShowPicture(t, id))
  {
    var after := ShowPicture(t, id);
    forall k | k in after.snapshots ensures SnapshotOk(after, k) {
      assert SnapshotOk(t, k);
    }
    forall p | p in after.current ensures CurrentOk(after, p) {
      assert CurrentOk(t, p);
    }
    forall r ensures ReferenceOk(after, r) {
      assert ReferenceOk(t, r);
    }
    forall j | j in after.pins ensures PinOk(after, after.pins[j]) {
      assert PinOk(t, t.pins[j]);
    }
  }

  lemma StepKeeps(t: Tables, op: Op)
    requires Inv(t) && Enabled(t, op)
    ensures Inv(Step(t, op))
  {
    hide Inv;
    match op
    case SaveOp(at, q, authorized, projectRevision) =>
      if SaveRefusal(t, at, q, authorized, projectRevision) == None { SavedKeeps(t, at, q, authorized, projectRevision); }
    case PruneOp(at, before, _) => PrunedKeeps(t, at, before);
    case CreateOp(id, at, _, _) => ArtifactAdded(t, id, Artifact(at.project, at.kind));
    case DeleteOp(id, project, authorized) => DeleteKeeps(t, id, project, authorized);
    case PinOp(job, at, input, revision, sourceRevision) =>
      if PinJob(t, job, at, input, revision, sourceRevision) != t {
        PinsAreOk(t);
        PinsKeep(t, t.pins[job := Pin(at.project, at.kind, input, revision, {})]);
      }
    case PublishOp(job, id) =>
      var p := t.pins[job];
      ArtifactAdded(t, id, Artifact(p.project, p.kind));
      var added := t.(artifacts := t.artifacts[id := Artifact(p.project, p.kind)]);
      PinsAreOk(added);
      PinsKeep(added, t.pins[job := p.(outputs := p.outputs + {id})]);
    case UnpinOp(job) =>
      PinsAreOk(t);
      PinsKeep(t, t.pins - {job});
    case ShowOp(id) => ShowKeeps(t, id);
  }

  // ---------- runs ----------

  ghost predicate Legal(t: Tables, run: seq<Op>)
    decreases |run|
  {
    run == [] || (Enabled(t, run[0]) && Legal(Step(t, run[0]), run[1..]))
  }

  ghost function Exec(t: Tables, run: seq<Op>): Tables
    requires Legal(t, run)
    decreases |run|
  {
    if run == [] then t else Exec(Step(t, run[0]), run[1..])
  }

  lemma {:induction false} Keeps(t: Tables, run: seq<Op>)
    requires Inv(t) && Legal(t, run)
    ensures Inv(Exec(t, run))
    decreases |run|
  {
    hide Inv, Step, Enabled;
    if run != [] {
      StepKeeps(t, run[0]);
      Keeps(Step(t, run[0]), run[1..]);
    }
  }

  lemma FromEmpty(run: seq<Op>)
    requires Legal(EMPTY, run)
    ensures Inv(Exec(EMPTY, run))
  {
    assert forall at :: Revisions(EMPTY.snapshots, at) == {};
    Keeps(EMPTY, run);
  }

  /** In every run: a workspace can always be read, its current revision is its newest, its
      history holds at most 32 revisions and is listed in full, and every payload and
      reference of it is an artifact of the same project and kind. */
  lemma Reachable(run: seq<Op>, at: Place)
    requires Legal(EMPTY, run)
    ensures var t := Exec(EMPTY, run);
      && State(t, at) == Ok(View(if at in t.current then Some(t.current[at]) else None, Descending(Revisions(t.snapshots, at))))
      && (at in t.current ==> Revisions(t.snapshots, at) != {} && t.current[at] == Max(Revisions(t.snapshots, at)))
      && |Revisions(t.snapshots, at)| <= MAX_HISTORY
      && forall k :: k in t.snapshots && PlaceOf(k) == at ==> SnapshotOk(t, k)
  {
    FromEmpty(run);
    StateIsConsistent(Exec(EMPTY, run), at);
    CurrentIsMax(Exec(EMPTY, run), at);
  }

  // ---------- compare and set ----------

  predicate Succeeds(t: Tables, op: Op) {
    op.SaveOp? && SaveWorkspace(t, op.at, op.q, op.authorized, op.projectRevision).1.Ok?
  }

  lemma CurrentStep(t: Tables, op: Op, at: Place)
    requires Enabled(t, op)
    ensures CurrentRevision(Step(t, op), at) == CurrentRevision(t, at) + if Succeeds(t, op) && op.at == at then 1 else 0
    ensures Succeeds(t, op) && op.at == at ==> op.q.base == CurrentRevision(t, at)
  {
  }

  lemma {:induction false} CurrentGrows(t: Tables, run: seq<Op>, at: Place)
    requires Legal(t, run)
    ensures CurrentRevision(t, at) <= CurrentRevision(Exec(t, run), at)
    decreases |run|
  {
    hide Step, CurrentRevision;
    if run != [] {
      CurrentStep(t, run[0], at);
      CurrentGrows(Step(t, run[0]), run[1..], at);
    }
  }

  /** Of two saves of a workspace the later one gets the larger revision, whatever was pruned
      between them; so no revision is ever reused, and of two saves with the same base at
      most one succeeds. */
  lemma RevisionsAreNeverReused(t: Tables, first: Op, run: seq<Op>, second: Op)
    requires Enabled(t, first) && Succeeds(t, first) && Legal(Step(t, first), run)
    requires Enabled(Exec(Step(t, first), run), second) && Succeeds(Exec(Step(t, first), run), second) && first.at == second.at
    ensures var (middle, last) := (Step(t, first), Step(Exec(Step(t, first), run), second));
      && CurrentRevision(middle, first.at) < CurrentRevision(last, first.at)
      && first.q.base < second.q.base
  {
    hide Step, CurrentRevision, SaveWorkspace;
    CurrentStep(t, first, first.at);
    CurrentGrows(Step(t, first), run, first.at);
    CurrentStep(Exec(Step(t, first), run), second, first.at);
  }

  /** A save whose base is current, well formed, within history and with its artifacts in
      place succeeds; reading the state back never undoes it. */
  lemma SaveSucceedsIff(run: seq<Op>, op: Op)
    requires Legal(EMPTY, run) && op.SaveOp?
    ensures Succeeds(Exec(EMPTY, run), op) <==> SaveRefusal(Exec(EMPTY, run), op.at, op.q, op.authorized, op.projectRevision) == None
  {
    hide Inv, Legal, Exec, SaveRefusal, State;
    var t := Exec(EMPTY, run);
    FromEmpty(run);
    if SaveRefusal(t, op.at, op.q, op.authorized, op.projectRevision) == None {
      SavedKeeps(t, op.at, op.q, op.authorized, op.projectRevision);
      StateIsConsistent(Saved(t, op.at, op.q), op.at);
    }
  }

  lemma DescendingGrows(s: set<nat>, top: nat)
    requires forall x :: x in s ==> x < top
    ensures Descending(s + {top}) == [top] + Descending(s)
  {
    assert Max(s + {top}) == top;
    assert s + {top} - {top} == s;
  }

  lemma SavedRevisions(t: Tables, at: Place, q: Save, other: Place)
    requires other != at
    ensures Revisions(Saved(t, at, q).snapshots, other) == Revisions(t.snapshots, other)
    ensures Revisions(Saved(t, at, q).snapshots, at) == Revisions(t.snapshots, at) + {CurrentRevision(t, at) + 1}
  {
  }

  lemma SavedReads(t: Tables, at: Place, q: Save, other: Place)
    requires Inv(t) && Inv(Saved(t, at, q)) && other != at
    ensures State(t, at).Ok?
    ensures State(Saved(t, at, q), at) ==
      Ok(View(Some(CurrentRevision(t, at) + 1), [CurrentRevision(t, at) + 1] + State(t, at).value.history))
    ensures State(Saved(t, at, q), other) == State(t, other)
  {
    hide Inv, State, Revisions;
    var after := Saved(t, at, q);
    StateIsConsistent(t, at);
    StateIsConsistent(after, at);
    StateIsConsistent(t, other);
    StateIsConsistent(after, other);
    SavedRevisions(t, at, q, other);
    RevisionsUpTo(t, at);
    DescendingGrows(Revisions(t.snapshots, at), CurrentRevision(t, at) + 1);
  }

  lemma SucceedsMeans(t: Tables, op: Op)
    requires Succeeds(t, op)
    ensures Step(t, op) == Saved(t, op.at, op.q) && SaveRefusal(t, op.at, op.q, op.authorized, op.projectRevision) == None
    ensures op.q.base == CurrentRevision(t, op.at)
  {
    hide State;
  }

  lemma SavedShows(t: Tables, at: Place, q: Save)
    ensures var key := Key(at.project, at.kind, CurrentRevision(t, at) + 1);
      key in Saved(t, at, q).snapshots && Saved(t, at, q).snapshots[key] == Snapshot(q.sourceRevision, q.payload, q.references)
  {
  }

  /** After a save the workspace reads as one revision newer, the new snapshot first in an
      otherwise unchanged history; every other workspace reads as before. */
  lemma SavedIsNewest(run: seq<Op>, op: Op, other: Place)
    requires Legal(EMPTY, run) && op.SaveOp? && Succeeds(Exec(EMPTY, run), op) && other != op.at
    ensures State(Exec(EMPTY, run), op.at).Ok?
    ensures State(Step(Exec(EMPTY, run), op), op.at) ==
      Ok(View(Some(op.q.base + 1), [op.q.base + 1] + State(Exec(EMPTY, run), op.at).value.history))
    ensures var (after, key) := (Step(Exec(EMPTY, run), op), Key(op.at.project, op.at.kind, op.q.base + 1));
      key in after.snapshots && after.snapshots[key] == Snapshot(op.q.sourceRevision, op.q.payload, op.q.references)
    ensures State(Step(Exec(EMPTY, run), op), other) == State(Exec(EMPTY, run), other)
  {
    hide Inv, SaveRefusal, State, Succeeds, Step, Exec, Legal, Saved, Enabled;
    var t := Exec(EMPTY, run);
    FromEmpty(run);
    SucceedsMeans(t, op);
    SavedShows(t, op.at, op.q);
    SavedKeeps(t, op.at, op.q, op.authorized, op.projectRevision);
    SavedReads(t, op.at, op.q, other);
  }

  lemma RevisionsUpTo(t: Tables, at: Place)
    requires Inv(t)
    ensures forall r :: r in Revisions(t.snapshots, at) ==> r <= CurrentRevision(t, at)
  {
    forall r | r in Revisions(t.snapshots, at) ensures r <= CurrentRevision(t, at) {
      assert SnapshotOk(t, Key(at.project, at.kind, r));
    }
  }

  /** Snapshots are never rewritten: a step leaves each one as it is or prunes it, and never
      prunes the current one or one that a native job was submitted from. */
  lemma SnapshotsAreImmutable(t: Tables, op: Op, k: Key)
    requires Inv(t) && Enabled(t, op) && k in t.snapshots
    ensures k in Step(t, op).snapshots ==> Step(t, op).snapshots[k] == t.snapshots[k]
    ensures k !in Step(t, op).snapshots ==>
      op.PruneOp? && op.authorized && PlaceOf(k) == op.at && k.revision < op.before && k.revision < CurrentRevision(t, op.at) && !Pinned(t, k)
  {
    assert SnapshotOk(t, k);
    hide State, SaveRefusal, Inv, SnapshotOk, Revisions;
    if op.SaveOp? { NextIsNew(t, op.at); }
  }

  /** An artifact disappears only by a deletion, and only while no snapshot, native job or
      render job uses it. */
  lemma OnlyUnusedArtifactsGo(t: Tables, op: Op, id: ArtifactId)
    requires Inv(t) && Enabled(t, op) && id in t.artifacts && id !in Step(t, op).artifacts
    ensures op.DeleteOp? && op.id == id
    ensures forall k :: k in t.snapshots ==> t.snapshots[k].payload != id && id !in t.snapshots[k].references
    ensures forall j :: j in t.pins ==> t.pins[j].input != id && id !in t.pins[j].outputs
    ensures id !in t.pictures
  {
    var project := op.project;
    forall k | k in t.snapshots ensures t.snapshots[k].payload != id && id !in t.snapshots[k].references {
      assert SnapshotOk(t, k) && ReferenceOk(t, Reference(k, id));
      assert Reference(k, id) in t.references && k.project == project ==> IsReference(t, project, id);
    }
    forall j | j in t.pins ensures t.pins[j].input != id && id !in t.pins[j].outputs {
      assert PinOk(t, t.pins[j]);
    }
  }
}

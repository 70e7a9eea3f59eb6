/** What each operation on workspaces answers and leaves behind, told on rows. */
module WorkspaceOutcomes {
  import opened Wrappers
  import opened Workspaces
  import opened WorkspaceRuns

  // ---------- saving ----------

  /** What a caller may send: numbers that JSON keeps exactly, at most 16 references without
      repetition, and none of them the payload. */
  predicate Acceptable(q: Save) {
    && q.base <= 9007199254740990 && q.sourceRevision <= 9007199254740991 && |q.references| <= 16
    && (forall i, j :: 0 <= i < j < |q.references| ==> q.references[i] != q.references[j])
    && forall i :: 0 <= i < |q.references| ==> q.references[i] != q.payload
  }

  predicate InPlace(t: Tables, at: Place, artifact: ArtifactId) {
    artifact in t.artifacts && t.artifacts[artifact].project == at.project && t.artifacts[artifact].kind == at.kind
  }

  function Newest(t: Tables, at: Place): nat {
    if at in t.current then t.current[at] else 0
  }

  ghost function History(t: Tables, at: Place): set<Key> {
    set k | k in t.snapshots && k.project == at.project && k.kind == at.kind
  }

  lemma {:induction false} SameSize(keys: set<Key>, revisions: set<nat>, at: Place)
    requires forall k :: k in keys ==> k.project == at.project && k.kind == at.kind && k.revision in revisions
    requires forall r :: r in revisions ==> Key(at.project, at.kind, r) in keys
    ensures |keys| == |revisions|
    decreases keys
  {
    if keys == {} {
      assert revisions == {} by {
        if r :| r in revisions { assert Key(at.project, at.kind, r) in keys; }
      }
    } else {
      var k :| k in keys;
      SameSize(keys - {k}, revisions - {k.revision}, at);
    }
  }

  lemma HistoryMeans(t: Tables, at: Place)
    ensures |Revisions(t.snapshots, at)| == |History(t, at)|
  {
    SameSize(History(t, at), Revisions(t.snapshots, at), at);
  }

  /** The first reason against a save. */
  ghost function Objection(t: Tables, at: Place, q: Save, authorized: bool, projectRevision: nat): Option<Error> {
    if !Acceptable(q) then Some(Invalid)
    else if !authorized then Some(Forbidden)
    else if Newest(t, at) != q.base then Some(Conflict(Newest(t, at)))
    else if q.sourceRevision > projectRevision then Some(SourceAhead)
    else if q.requireCurrentSource && q.sourceRevision < projectRevision then Some(SourceChanged)
    else if |History(t, at)| >= 32 then Some(HistoryFull)
    else if !(InPlace(t, at, q.payload) && forall i :: 0 <= i < |q.references| ==> InPlace(t, at, q.references[i])) then Some(ArtifactInvalid)
    else None
  }

  lemma BackedMeans(t: Tables, at: Place, references: seq<ArtifactId>)
    ensures (forall a :: a in references ==> Holds(t, a, at)) <==> forall i :: 0 <= i < |references| ==> InPlace(t, at, references[i])
  {
    forall a ensures Holds(t, a, at) <==> InPlace(t, at, a) {}
    hide Holds, InPlace;
    if forall a :: a in references ==> Holds(t, a, at) {
      forall i | 0 <= i < |references| ensures InPlace(t, at, references[i]) { assert references[i] in references; }
    }
  }

  lemma ObjectionMeans(t: Tables, at: Place, q: Save, authorized: bool, projectRevision: nat)
    ensures SaveRefusal(t, at, q, authorized, projectRevision) == Objection(t, at, q, authorized, projectRevision)
  {
    HistoryMeans(t, at);
    assert WellFormed(q) <==> Acceptable(q);
    BackedMeans(t, at, q.references);
    hide Revisions, History, WellFormed, Acceptable;
  }

  /** The new snapshot with its references, and nothing else, is there and current. */
  ghost predicate SavedAs(t: Tables, after: Tables, at: Place, q: Save, key: Key) {
    && after.snapshots == t.snapshots[key := Snapshot(q.sourceRevision, q.payload, q.references)]
    && after.current == t.current[at := key.revision]
    && (forall r :: r in after.references <==> r in t.references || (r.at == key && r.artifact in q.references))
    && after.artifacts == t.artifacts && after.pins == t.pins && after.pictures == t.pictures
  }

  lemma SavedIs(t: Tables, at: Place, q: Save)
    ensures SavedAs(t, Saved(t, at, q), at, q, Key(at.project, at.kind, Newest(t, at) + 1))
  {
  }

  lemma Accepts(t: Tables, at: Place, q: Save)
    requires Inv(t) && Savable(t, at, q) && Inv(Saved(t, at, q))
    ensures State(Saved(t, at, q), at).Ok? && State(Saved(t, at, q), at).value.workspace == Some(Newest(t, at) + 1)
    ensures Key(at.project, at.kind, Newest(t, at) + 1) !in t.snapshots
  {
    hide Inv, State, Saved, Savable;
    SavedReads(t, at, q, Place(at.project + 1, at.kind));
    NextIsNew(t, at);
  }

  lemma SaveMeans(t: Tables, at: Place, q: Save, authorized: bool, projectRevision: nat)
    requires Inv(t)
    ensures var (after, answer) := SaveWorkspace(t, at, q, authorized, projectRevision);
      var (objection, key) := (Objection(t, at, q, authorized, projectRevision), Key(at.project, at.kind, Newest(t, at) + 1));
      if objection.Some? then after == t && answer == Err(objection.value)
      else
        && answer.Ok? && answer.value.workspace == Some(q.base + 1)
        && key !in t.snapshots && SavedAs(t, after, at, q, key) && key.revision == q.base + 1
  {
    hide Objection, Inv, State, SaveRefusal, Saved, SavedAs, Savable;
    ObjectionMeans(t, at, q, authorized, projectRevision);
    SavedIs(t, at, q);
    if SaveRefusal(t, at, q, authorized, projectRevision) == None {
      AcceptedIsSavable(t, at, q, authorized, projectRevision);
      SavedKeeps(t, at, q, authorized, projectRevision);
      Accepts(t, at, q);
    }
  }

  /** In every run a save is refused for the first reason against it and changes nothing; else
      it adds the next revision with its references and makes it current. */
  lemma SaveAnswers(run: seq<Op>, at: Place, q: Save, authorized: bool, projectRevision: nat)
    requires Legal(EMPTY, run)
    ensures var t := Exec(EMPTY, run);
      var (after, answer) := SaveWorkspace(t, at, q, authorized, projectRevision);
      var (objection, key) := (Objection(t, at, q, authorized, projectRevision), Key(at.project, at.kind, Newest(t, at) + 1));
      if objection.Some? then after == t && answer == Err(objection.value)
      else
        && answer.Ok? && answer.value.workspace == Some(q.base + 1)
        && key !in t.snapshots && SavedAs(t, after, at, q, key) && key.revision == q.base + 1
  {
    hide Objection, Inv, Exec, Legal, SaveWorkspace, SavedAs;
    FromEmpty(run);
    SaveMeans(Exec(EMPTY, run), at, q, authorized, projectRevision);
  }

  // ---------- pruning ----------

  /** Old, not current, and no native job was submitted from it. */
  predicate Idle(t: Tables, at: Place, before: nat, k: Key) {
    && k.project == at.project && k.kind == at.kind && k.revision < before && k.revision != Newest(t, at)
    && forall j :: j in t.pins ==> !(t.pins[j].project == at.project && t.pins[j].kind == at.kind && t.pins[j].revision == Some(k.revision))
  }

  lemma IdleMeans(t: Tables, at: Place, before: nat, k: Key)
    ensures Prunable(t, at, before, k) <==> Idle(t, at, before, k)
  {
    if Idle(t, at, before, k) {
      forall j | j in t.pins ensures !PinsKey(t.pins[j], k) {}
    } else if k.project == at.project && k.kind == at.kind && k.revision < before && k.revision != Newest(t, at) {
      var j :| j in t.pins && t.pins[j].project == at.project && t.pins[j].kind == at.kind && t.pins[j].revision == Some(k.revision);
      assert PinsKey(t.pins[j], k);
    }
  }

  /** Pruning takes exactly the idle snapshots with their references, and leaves a workspace
      that can be read. */
  lemma PruneAnswers(run: seq<Op>, at: Place, before: nat, authorized: bool)
    requires Legal(EMPTY, run)
    ensures var t := Exec(EMPTY, run);
      var (after, answer) := PruneHistory(t, at, before, authorized);
      if !authorized then after == t && answer == Err(Forbidden)
      else
        && answer.Ok? && answer.value.workspace == (if at in t.current then Some(t.current[at]) else None)
        && (forall k :: k in after.snapshots <==> k in t.snapshots && !Idle(t, at, before, k))
        && (forall k :: k in after.snapshots ==> after.snapshots[k] == t.snapshots[k])
        && (forall r :: r in after.references <==> r in t.references && !Idle(t, at, before, r.at))
        && after.artifacts == t.artifacts && after.current == t.current && after.pins == t.pins && after.pictures == t.pictures
  {
    var t := Exec(EMPTY, run);
    FromEmpty(run);
    PrunedKeeps(t, at, before);
    StateIsConsistent(Pruned(t, at, before), at);
    forall k ensures Prunable(t, at, before, k) <==> Idle(t, at, before, k) { IdleMeans(t, at, before, k); }
    hide Inv, Exec, Legal, State, Prunable, Idle, Descending;
  }

  // ---------- artifacts ----------

  lemma CreateAnswers(t: Tables, id: ArtifactId, at: Place, authorized: bool, room: bool)
    ensures var (after, error) := CreateArtifact(t, id, at, authorized, room);
      && error == (if !authorized then Some(Forbidden) else if !room then Some(NoRoom) else None)
      && after == if error.Some? then t else t.(artifacts := t.artifacts[id := Artifact(at.project, at.kind)])
  {
  }

  /** A snapshot of the project, a native job of it, or any render job shows the artifact. */
  predicate Wanted(t: Tables, project: ProjectId, id: ArtifactId) {
    || (exists k :: k in t.snapshots && k.project == project && (t.snapshots[k].payload == id || id in t.snapshots[k].references))
    || (exists j :: j in t.pins && t.pins[j].project == project && (t.pins[j].input == id || id in t.pins[j].outputs))
    || id in t.pictures
  }

  lemma WantedMeans(t: Tables, project: ProjectId, id: ArtifactId)
    requires Inv(t)
    ensures InUse(t, project, id) <==> Wanted(t, project, id)
  {
    if IsReference(t, project, id) {
      var r :| r in t.references && r.at.project == project && r.artifact == id;
      assert ReferenceOk(t, r);
    }
    if k :| k in t.snapshots && k.project == project && id in t.snapshots[k].references {
      assert ReferenceOk(t, Reference(k, id));
      assert Reference(k, id) in t.references;
    }
    hide Inv;
  }

  /** In every run a deletion succeeds exactly for an artifact of the project that nothing wants. */
  lemma DeleteAnswers(run: seq<Op>, id: ArtifactId, project: ProjectId, authorized: bool)
    requires Legal(EMPTY, run)
    ensures var t := Exec(EMPTY, run);
      var (after, error) := DeleteArtifact(t, id, project, authorized);
      var there := id in t.artifacts && t.artifacts[id].project == project;
      && error == (if !authorized then Some(Forbidden) else if !there then Some(NotFound)
                   else if Wanted(t, project, id) then Some(Referenced) else None)
      && after == if error.Some? then t else t.(artifacts := t.artifacts - {id})
  {
    FromEmpty(run);
    WantedMeans(Exec(EMPTY, run), project, id);
    hide Inv, Exec, Legal, InUse, Wanted;
  }

  // ---------- jobs ----------

  /** The revision says that it was made from this artifact at this revision of the project. */
  predicate Declares(t: Tables, at: Place, revision: nat, sourceRevision: nat, artifact: ArtifactId) {
    var k := Key(at.project, at.kind, revision);
    k in t.snapshots && t.snapshots[k].sourceRevision == sourceRevision
    && (t.snapshots[k].payload == artifact || artifact in t.snapshots[k].references)
  }

  /** In every run a native job is taken exactly if its input is in place and the revision it
      names, if any, declares that input. */
  lemma PinAnswers(run: seq<Op>, job: JobId, at: Place, input: ArtifactId, revision: Option<nat>, sourceRevision: nat)
    requires Legal(EMPTY, run)
    ensures var t := Exec(EMPTY, run);
      PinJob(t, job, at, input, revision, sourceRevision) ==
        if InPlace(t, at, input) && (revision.Some? ==> Declares(t, at, revision.value, sourceRevision, input))
        then t.(pins := t.pins[job := Pin(at.project, at.kind, input, revision, {})]) else t
  {
    var t := Exec(EMPTY, run);
    FromEmpty(run);
    if revision.Some? { assert ReferenceOk(t, Reference(Key(at.project, at.kind, revision.value), input)); }
    hide Inv, Exec, Legal;
  }

  /** An output is stored in the place of its job, which holds on to it. */
  lemma PublishAnswers(t: Tables, job: JobId, id: ArtifactId)
    requires job in t.pins
    ensures var (after, p) := (PublishOutput(t, job, id), t.pins[job]);
      && after.artifacts == t.artifacts[id := Artifact(p.project, p.kind)] && after.snapshots == t.snapshots
      && after.references == t.references && after.current == t.current && after.pictures == t.pictures && after.pins.Keys == t.pins.Keys
      && (forall j :: j in t.pins && j != job ==> after.pins[j] == t.pins[j])
      && after.pins[job] == Pin(p.project, p.kind, p.input, p.revision, p.outputs + {id})
  {
  }

  lemma UnpinAnswers(t: Tables, job: JobId)
    ensures var after := UnpinJob(t, job);
      after.(pins := t.pins) == t && after.pins.Keys == t.pins.Keys - {job} && forall j :: j in after.pins ==> after.pins[j] == t.pins[j]
  {
  }

  lemma ShowAnswers(t: Tables, id: ArtifactId)
    ensures var after := ShowPicture(t, id);
      after.(pictures := t.pictures) == t && forall a :: a in after.pictures <==> a in t.pictures || (a == id && id in t.artifacts)
  {
  }
}

/** Versioned workspaces: snapshots that point at artifacts, saved by comparing revisions. */
module Workspaces {
  import opened Wrappers

  type ProjectId = nat
  type ArtifactId = nat
  type JobId = nat

  const MAX_HISTORY := 32
  const MAX_REFERENCES := 16
  const MAX_SAFE_INTEGER := 0x1F_FFFF_FFFF_FFFF

  datatype Kind = Engineering | Exchange | Geometry

  datatype Artifact = Artifact(project: ProjectId, kind: Kind)

  datatype Key = Key(project: ProjectId, kind: Kind, revision: nat)

  datatype Snapshot = Snapshot(sourceRevision: nat, payload: ArtifactId, references: seq<ArtifactId>)

  datatype Place = Place(project: ProjectId, kind: Kind)

  datatype Reference = Reference(at: Key, artifact: ArtifactId)

  /** What a native job holds on to: its input, the revision it was read from, its outputs. */
  datatype Pin = Pin(project: ProjectId, kind: Kind, input: ArtifactId, revision: Option<nat>, outputs: set<ArtifactId>)

  /** `pictures`: artifacts that render jobs show. */
  datatype Tables = Tables(
    artifacts: map<ArtifactId, Artifact>,
    snapshots: map<Key, Snapshot>,
    references: set<Reference>,
    current: map<Place, nat>,
    pins: map<JobId, Pin>,
    pictures: set<ArtifactId>)

  const EMPTY := Tables(map[], map[], {}, map[], map[], {})

  datatype Save = Save(base: nat, sourceRevision: nat, payload: ArtifactId, references: seq<ArtifactId>, requireCurrentSource: bool)

  datatype Error =
    | Invalid | Forbidden | Conflict(current: nat) | RevisionCapacity | SourceAhead | SourceChanged
    | HistoryFull | ArtifactInvalid | Inconsistent | NotFound | Referenced | NoRoom

  // ---------- reading ----------

  function Revisions(snapshots: map<Key, Snapshot>, at: Place): set<nat> {
    set k | k in snapshots && k.project == at.project && k.kind == at.kind :: k.revision
  }

  function Max(s: set<nat>): (m: nat)
    requires s != {}
    ensures m in s && forall x :: x in s ==> x <= m
  {
    MaxExists(s);
    var m :| m in s && forall x :: x in s ==> x <= m;
    m
  }

  lemma MaxExists(s: set<nat>)
    requires s != {}
    ensures exists m :: m in s && forall x :: x in s ==> x <= m
  {
    var x :| x in s;
    if s != {x} {
      assert s - {x} != {};
      MaxExists(s - {x});
      var m :| m in s - {x} && forall y :: y in s - {x} ==> y <= m;
      var top := if x < m then m else x;
      assert top in s;
      forall y | y in s ensures y <= top {
        assert y == x || y in s - {x};
      }
    }
  }

  /** ORDER BY revision DESC. */
  function Descending(s: set<nat>): seq<nat> {
    if s == {} then [] else [Max(s)] + Descending(s - {Max(s)})
  }

  ghost predicate Falling(r: seq<nat>) {
    forall i, j :: 0 <= i < j < |r| ==> r[i] > r[j]
  }

  lemma LargestFirst(s: set<nat>, m: nat, rest: seq<nat>)
    requires m in s && forall x :: x in s ==> x <= m
    requires Falling(rest) && forall x :: x in rest <==> x in s - {m}
    ensures Falling([m] + rest)
    ensures forall x :: x in [m] + rest <==> x in s
  {
    var all := [m] + rest;
    forall i, j | 0 <= i < j < |all| ensures all[i] > all[j] {
      assert all[j] == rest[j - 1] && rest[j - 1] in rest;
      if i > 0 { assert all[i] == rest[i - 1]; }
    }
  }

  lemma {:induction false} DescendingLists(s: set<nat>)
    ensures |Descending(s)| == |s| && (forall x :: x in Descending(s) <==> x in s)
    ensures Falling(Descending(s))
  {
    hide Falling;
    if s == {} {
      assert Falling([]) by { EmptyFalls(); }
    } else {
      var m := Max(s);
      assert Descending(s) == [m] + Descending(s - {m});
      DescendingLists(s - {m});
      hide Descending;
      LargestFirst(s, m, Descending(s - {m}));
    }
  }

  lemma EmptyFalls()
    ensures Falling([])
  {
  }

  function FirstRows(s: seq<nat>): seq<nat> {
    if |s| <= MAX_HISTORY then s else s[..MAX_HISTORY]
  }

  function CurrentRevision(t: Tables, at: Place): nat {
    if at in t.current then t.current[at] else 0
  }

  datatype View = View(workspace: Option<nat>, history: seq<nat>)

  function State(t: Tables, at: Place): Result<View, Error> {
    var history := FirstRows(Descending(Revisions(t.snapshots, at)));
    if at in t.current then
      if t.current[at] in history then Ok(View(Some(t.current[at]), history)) else Err(Inconsistent)
    else if history != [] then Err(Inconsistent)
    else Ok(View(None, []))
  }

  // ---------- saving ----------

  predicate Distinct(s: seq<ArtifactId>) {
    forall i, j :: 0 <= i < j < |s| ==> s[i] != s[j]
  }

  predicate WellFormed(q: Save) {
    && q.base <= MAX_SAFE_INTEGER - 1 && q.sourceRevision <= MAX_SAFE_INTEGER
    && |q.references| <= MAX_REFERENCES && Distinct(q.references) && q.payload !in q.references
  }

  predicate Holds(t: Tables, artifact: ArtifactId, at: Place) {
    artifact in t.artifacts && t.artifacts[artifact] == Artifact(at.project, at.kind)
  }

  predicate Backed(t: Tables, q: Save, at: Place) {
    Holds(t, q.payload, at) && forall a :: a in q.references ==> Holds(t, a, at)
  }

  function SaveRefusal(t: Tables, at: Place, q: Save, authorized: bool, projectRevision: nat): Option<Error> {
    var current := CurrentRevision(t, at);
    if !WellFormed(q) then Some(Invalid)
    else if !authorized then Some(Forbidden)
    else if current != q.base then Some(Conflict(current))
    else if current >= MAX_SAFE_INTEGER then Some(RevisionCapacity)
    else if q.sourceRevision > projectRevision then Some(SourceAhead)
    else if q.requireCurrentSource && q.sourceRevision != projectRevision then Some(SourceChanged)
    else if |Revisions(t.snapshots, at)| >= MAX_HISTORY then Some(HistoryFull)
    else if !Backed(t, q, at) then Some(ArtifactInvalid)
    else None
  }

  function Saved(t: Tables, at: Place, q: Save): Tables {
    var key := Key(at.project, at.kind, CurrentRevision(t, at) + 1);
    t.(snapshots := t.snapshots[key := Snapshot(q.sourceRevision, q.payload, q.references)],
       references := t.references + set a | a in q.references :: Reference(key, a),
       current := t.current[at := key.revision])
  }

  /** The answer is the state after saving; a state that cannot be read undoes the save. */
  function SaveWorkspace(t: Tables, at: Place, q: Save, authorized: bool, projectRevision: nat): (Tables, Result<View, Error>) {
    var refusal := SaveRefusal(t, at, q, authorized, projectRevision);
    if refusal.Some? then (t, Err(refusal.value))
    else if State(Saved(t, at, q), at).Err? then (t, State(Saved(t, at, q), at))
    else (Saved(t, at, q), State(Saved(t, at, q), at))
  }

  // ---------- pruning ----------

  predicate Pinned(t: Tables, k: Key) {
    exists j :: j in t.pins && PinsKey(t.pins[j], k)
  }

  predicate PinsKey(p: Pin, k: Key) {
    p.project == k.project && p.kind == k.kind && p.revision == Some(k.revision)
  }

  predicate Prunable(t: Tables, at: Place, before: nat, k: Key) {
    && k.project == at.project && k.kind == at.kind && k.revision < before
    && k.revision != CurrentRevision(t, at) && !Pinned(t, k)
  }

  function Pruned(t: Tables, at: Place, before: nat): Tables {
    t.(snapshots := map k | k in t.snapshots && !Prunable(t, at, before, k) :: t.snapshots[k],
       references := set r | r in t.references && !Prunable(t, at, before, r.at))
  }

  function PruneHistory(t: Tables, at: Place, before: nat, authorized: bool): (Tables, Result<View, Error>) {
    if !authorized then (t, Err(Forbidden))
    else if State(Pruned(t, at, before), at).Err? then (t, State(Pruned(t, at, before), at))
    else (Pruned(t, at, before), State(Pruned(t, at, before), at))
  }

  // ---------- artifacts ----------

  function CreateArtifact(t: Tables, id: ArtifactId, at: Place, authorized: bool, room: bool): (Tables, Option<Error>) {
    if !authorized then (t, Some(Forbidden))
    else if !room then (t, Some(NoRoom))
    else (t.(artifacts := t.artifacts[id := Artifact(at.project, at.kind)]), None)
  }

  predicate IsPayload(t: Tables, project: ProjectId, id: ArtifactId) {
    exists k :: k in t.snapshots && k.project == project && t.snapshots[k].payload == id
  }

  predicate IsReference(t: Tables, project: ProjectId, id: ArtifactId) {
    exists r :: r in t.references && r.at.project == project && r.artifact == id
  }

  predicate HeldByJob(t: Tables, project: ProjectId, id: ArtifactId) {
    exists j :: j in t.pins && t.pins[j].project == project && (t.pins[j].input == id || id in t.pins[j].outputs)
  }

  predicate InUse(t: Tables, project: ProjectId, id: ArtifactId) {
    IsPayload(t, project, id) || IsReference(t, project, id) || HeldByJob(t, project, id) || id in t.pictures
  }

  function DeleteArtifact(t: Tables, id: ArtifactId, project: ProjectId, authorized: bool): (Tables, Option<Error>) {
    if !authorized then (t, Some(Forbidden))
    else if id !in t.artifacts || t.artifacts[id].project != project then (t, Some(NotFound))
    else if InUse(t, project, id) then (t, Some(Referenced))
    else (t.(artifacts := t.artifacts - {id}), None)
  }

  // ---------- native and render jobs ----------

  predicate Cites(t: Tables, k: Key, sourceRevision: nat, artifact: ArtifactId) {
    && k in t.snapshots && t.snapshots[k].sourceRevision == sourceRevision
    && (t.snapshots[k].payload == artifact || Reference(k, artifact) in t.references)
  }

  /** Submitting a native job pins its input, and the revision it declares if that cites it. */
  function PinJob(t: Tables, job: JobId, at: Place, input: ArtifactId, revision: Option<nat>, sourceRevision: nat): Tables {
    if !Holds(t, input, at) then t
    else if revision.Some? && !Cites(t, Key(at.project, at.kind, revision.value), sourceRevision, input) then t
    else t.(pins := t.pins[job := Pin(at.project, at.kind, input, revision, {})])
  }

  function PublishOutput(t: Tables, job: JobId, id: ArtifactId): Tables
    requires job in t.pins
  {
    var p := t.pins[job];
    t.(artifacts := t.artifacts[id := Artifact(p.project, p.kind)], pins := t.pins[job := p.(outputs := p.outputs + {id})])
  }

  function UnpinJob(t: Tables, job: JobId): Tables {
    t.(pins := t.pins - {job})
  }

  /** A render job takes a stored artifact as its source, or stores its output as one. */
  function ShowPicture(t: Tables, id: ArtifactId): Tables {
    if id in t.artifacts then t.(pictures := t.pictures + {id}) else t
  }
}

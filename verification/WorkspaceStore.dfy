/** The workspace transactions over tables changed in place. */
module WorkspaceStore {
  import opened Wrappers
  import opened Workspaces

  lemma TopFirst(s: set<nat>, top: nat)
    requires top in s && forall x :: x in s ==> x <= top
    ensures Descending(s) == [top] + Descending(s - {top})
  {
    assert top == Max(s);
  }

  lemma EnoughRows(rows: seq<nat>, rest: seq<nat>)
    requires |rows| <= MAX_HISTORY && (rest == [] || |rows| == MAX_HISTORY)
    ensures FirstRows(rows + rest) == rows
  {
    if rest == [] { assert rows + rest == rows; } else { assert (rows + rest)[..MAX_HISTORY] == rows; }
  }

  lemma NoRows()
    ensures Descending({}) == []
  {
  }

  class Store {
    var artifacts: map<ArtifactId, Artifact>
    var snapshots: map<Key, Snapshot>
    var references: set<Reference>
    var current: map<Place, nat>
    var pins: map<JobId, Pin>
    var pictures: set<ArtifactId>

    function Contents(): Tables
      reads this
    {
      Tables(artifacts, snapshots, references, current, pins, pictures)
    }

    constructor ()
      ensures Contents() == EMPTY
    {
      artifacts, snapshots, references, current, pins, pictures := map[], map[], {}, map[], map[], {};
    }

    /** The newest revisions first. */
    method Newest(revisions: set<nat>) returns (rows: seq<nat>)
      ensures rows == FirstRows(Descending(revisions))
    {
      hide Descending, FirstRows;
      rows := [];
      var rest := revisions;
      assert [] + Descending(rest) == Descending(revisions);
      while rest != {} && |rows| < MAX_HISTORY
        invariant |rows| <= MAX_HISTORY && rows + Descending(rest) == Descending(revisions)
        decreases rest
      {
        MaxExists(rest);
        var top :| top in rest && forall x :: x in rest ==> x <= top;
        TopFirst(rest, top);
        assert rows + ([top] + Descending(rest - {top})) == (rows + [top]) + Descending(rest - {top});
        rows, rest := rows + [top], rest - {top};
      }
      NoRows();
      EnoughRows(rows, Descending(rest));
    }

    method ReadState(at: Place) returns (r: Result<View, Error>)
      ensures r == State(Contents(), at)
    {
      var history := Newest(Revisions(snapshots, at));
      if at in current {
        if current[at] !in history { return Err(Inconsistent); }
        return Ok(View(Some(current[at]), history));
      }
      if |history| > 0 { return Err(Inconsistent); }
      r := Ok(View(None, []));
    }

    method Check(at: Place, q: Save, authorized: bool, projectRevision: nat) returns (error: Option<Error>)
      ensures error == SaveRefusal(Contents(), at, q, authorized, projectRevision)
    {
      if !WellFormed(q) { return Some(Invalid); }
      if !authorized { return Some(Forbidden); }
      var revision := if at in current then current[at] else 0;
      if revision != q.base { return Some(Conflict(revision)); }
      if revision >= MAX_SAFE_INTEGER { return Some(RevisionCapacity); }
      if q.sourceRevision > projectRevision { return Some(SourceAhead); }
      if q.requireCurrentSource && q.sourceRevision != projectRevision { return Some(SourceChanged); }
      if |Revisions(snapshots, at)| >= MAX_HISTORY { return Some(HistoryFull); }
      var found := AllHeld([q.payload] + q.references, at);
      assert ([q.payload] + q.references)[0] == q.payload && ([q.payload] + q.references)[1..] == q.references;
      error := if found then None else Some(ArtifactInvalid);
    }

    method AllHeld(ids: seq<ArtifactId>, at: Place) returns (ok: bool)
      ensures ok == forall id :: id in ids ==> Holds(Contents(), id, at)
    {
      for i := 0 to |ids|
        invariant forall k :: 0 <= k < i ==> Holds(Contents(), ids[k], at)
      {
        if ids[i] !in artifacts || artifacts[ids[i]] != Artifact(at.project, at.kind) {
          assert ids[i] in ids && !Holds(Contents(), ids[i], at);
          return false;
        }
      }
      ok := true;
    }

    method SaveSnapshot(at: Place, q: Save, authorized: bool, projectRevision: nat) returns (r: Result<View, Error>)
      modifies this
      ensures (Contents(), r) == SaveWorkspace(old(Contents()), at, q, authorized, projectRevision)
    {
      hide SaveRefusal, State;
      var refusal := Check(at, q, authorized, projectRevision);
      if refusal.Some? { return Err(refusal.value); }
      var beforeSnapshots, beforeReferences, beforeCurrent := snapshots, references, current;
      var key := Key(at.project, at.kind, (if at in current then current[at] else 0) + 1);
      snapshots := snapshots[key := Snapshot(q.sourceRevision, q.payload, q.references)];
      var i := 0;
      while i < |q.references|
        invariant 0 <= i <= |q.references|
        invariant references == beforeReferences + set a | a in q.references[..i] :: Reference(key, a)
        invariant Contents() == old(Contents()).(snapshots := snapshots, references := references)
        invariant snapshots == beforeSnapshots[key := Snapshot(q.sourceRevision, q.payload, q.references)]
      {
        assert q.references[..i + 1] == q.references[..i] + [q.references[i]];
        references := references + {Reference(key, q.references[i])};
        i := i + 1;
      }
      assert q.references[..i] == q.references;
      current := current[at := key.revision];
      assert Contents() == Saved(old(Contents()), at, q);
      r := ReadState(at);
      if r.Err? { snapshots, references, current := beforeSnapshots, beforeReferences, beforeCurrent; }
    }

    method Prune(at: Place, before: nat, authorized: bool) returns (r: Result<View, Error>)
      modifies this
      ensures (Contents(), r) == PruneHistory(old(Contents()), at, before, authorized)
    {
      hide State;
      if !authorized { return Err(Forbidden); }
      var beforeSnapshots, beforeReferences := snapshots, references;
      var gone := set k | k in snapshots && Prunable(Contents(), at, before, k);
      references := set ref | ref in references && !Prunable(Contents(), at, before, ref.at);
      snapshots := snapshots - gone;
      assert Contents() == Pruned(old(Contents()), at, before);
      r := ReadState(at);
      if r.Err? { snapshots, references := beforeSnapshots, beforeReferences; }
    }

    method AddArtifact(id: ArtifactId, at: Place, authorized: bool, room: bool) returns (error: Option<Error>)
      modifies this`artifacts
      ensures (Contents(), error) == CreateArtifact(old(Contents()), id, at, authorized, room)
    {
      if !authorized { return Some(Forbidden); }
      if !room { return Some(NoRoom); }
      artifacts := artifacts[id := Artifact(at.project, at.kind)];
      error := None;
    }

    method RemoveArtifact(id: ArtifactId, project: ProjectId, authorized: bool) returns (error: Option<Error>)
      modifies this`artifacts
      ensures (Contents(), error) == DeleteArtifact(old(Contents()), id, project, authorized)
    {
      if !authorized { return Some(Forbidden); }
      if id !in artifacts || artifacts[id].project != project { return Some(NotFound); }
      var used :=
        || (exists k <- snapshots :: k.project == project && snapshots[k].payload == id)
        || (exists ref <- references :: ref.at.project == project && ref.artifact == id)
        || (exists j <- pins :: pins[j].project == project && (pins[j].input == id || id in pins[j].outputs))
        || id in pictures;
      if used { return Some(Referenced); }
      artifacts := artifacts - {id};
      error := None;
    }
  }
}

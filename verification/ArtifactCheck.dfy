/**
  `assertArtifactMatchesPlan`: before anything is written, the stored artifact is compared with
  the plan that was approved. A file stands for its path, management mode and content hash.
 */
module ArtifactCheck {
  import opened Prelude

  datatype Operation = Create | Update | Delete

  datatype Change = Change(path: string, operation: Operation, mode: string, after: Option<string>)

  datatype File = File(path: string, mode: string, hash: string)

  /** One file of a snapshot: absent files have no hash. */
  datatype Stored = Stored(path: string, existed: bool, original: Option<string>)

  datatype Kind = Render | Optimization | Import | Rollback

  datatype Plan = Plan(
    id: string, kind: Kind, agentId: string, projectId: Option<string>, snapshotId: Option<string>, changes: seq<Change>)

  /** `settings` are the imported settings as stored. */
  datatype Artifact = Artifact(
    planId: string, adapterId: string, snapshotId: Option<string>, settings: Option<string>, files: seq<File>)

  datatype Snapshot = Snapshot(
    id: string, agentId: string, projectId: Option<string>, adapterVersion: string, files: seq<Stored>)

  function ChangePaths(changes: seq<Change>): seq<string> {
    seq(|changes|, i requires 0 <= i < |changes| => changes[i].path)
  }

  function FilePaths(files: seq<File>): seq<string> {
    seq(|files|, i requires 0 <= i < |files| => files[i].path)
  }

  function StoredPaths(files: seq<Stored>): seq<string> {
    seq(|files|, i requires 0 <= i < |files| => files[i].path)
  }

  predicate FileFits(f: File, c: Change) {
    f.path == c.path && f.mode == c.mode && !c.operation.Delete? && c.after == Some(f.hash)
  }

  predicate StoredFits(f: Stored, c: Change) {
    && f.path == c.path && c.mode == "managed-file"
    && c.operation == (if f.existed then Update else Delete)
    && c.after == f.original
  }

  /** `new Map(...)`: the last entry of a path; `size` counts the distinct paths. */
  function FindFile(files: seq<File>, path: string): Option<File> {
    if files == [] then None
    else
      var n := |files| - 1;
      if files[n].path == path then Some(files[n]) else FindFile(files[..n], path)
  }

  function FindChange(changes: seq<Change>, path: string): Option<Change> {
    if changes == [] then None
    else
      var n := |changes| - 1;
      if changes[n].path == path then Some(changes[n]) else FindChange(changes[..n], path)
  }

  lemma {:induction false} FindFileFinds(files: seq<File>, path: string)
    ensures FindFile(files, path).Some? ==> FindFile(files, path).value in files && FindFile(files, path).value.path == path
    ensures FindFile(files, path).None? ==> forall f :: f in files ==> f.path != path
  {
    if files != [] {
      assert files == files[..|files| - 1] + [files[|files| - 1]];
      FindFileFinds(files[..|files| - 1], path);
    }
  }

  lemma {:induction false} FindChangeFinds(changes: seq<Change>, path: string)
    ensures FindChange(changes, path).Some? ==>
              FindChange(changes, path).value in changes && FindChange(changes, path).value.path == path
    ensures FindChange(changes, path).None? ==> forall c :: c in changes ==> c.path != path
  {
    if changes != [] {
      assert changes == changes[..|changes| - 1] + [changes[|changes| - 1]];
      FindChangeFinds(changes[..|changes| - 1], path);
    }
  }

  lemma SamePlace(s: seq<string>, i: nat, j: nat)
    requires Distinct(s) && i < |s| && j < |s| && s[i] == s[j]
    ensures i == j
  {
  }

  lemma OnlyFile(files: seq<File>, f: File, g: File)
    requires Distinct(FilePaths(files)) && f in files && g in files && f.path == g.path
    ensures f == g
  {
    var i :| 0 <= i < |files| && files[i] == f;
    var j :| 0 <= j < |files| && files[j] == g;
    assert FilePaths(files)[i] == FilePaths(files)[j];
    SamePlace(FilePaths(files), i, j);
  }

  lemma OnlyChange(changes: seq<Change>, c: Change, d: Change)
    requires Distinct(ChangePaths(changes)) && c in changes && d in changes && c.path == d.path
    ensures c == d
  {
    var i :| 0 <= i < |changes| && changes[i] == c;
    var j :| 0 <= j < |changes| && changes[j] == d;
    assert ChangePaths(changes)[i] == ChangePaths(changes)[j];
    SamePlace(ChangePaths(changes), i, j);
  }

  /** What the check accepts, branch by branch. */
  ghost predicate RenderAccepted(files: seq<File>, changes: seq<Change>) {
    && |files| == |changes| && Distinct(FilePaths(files))
    && forall c :: c in changes ==> exists f :: f in files && FileFits(f, c)
  }

  ghost predicate RollbackAccepted(files: seq<Stored>, changes: seq<Change>) {
    && |files| == |changes| && Distinct(ChangePaths(changes))
    && forall f :: f in files ==> exists c :: c in changes && StoredFits(f, c)
  }

  /** The branch for rendered and optimized plans: no snapshot, no settings, and the files fit. */
  ghost predicate RenderMatches(plan: Plan, artifact: Artifact) {
    artifact.snapshotId == None && artifact.settings == None && RenderAccepted(artifact.files, plan.changes)
  }

  /** The branch for imports; the operation of the one change is not looked at. */
  predicate ImportMatches(plan: Plan, artifact: Artifact, secretFree: bool) {
    && artifact.snapshotId == None && artifact.settings.Some? && secretFree
    && |artifact.files| == 1 && |plan.changes| == 1
    && artifact.files[0].path == plan.changes[0].path && artifact.files[0].mode == plan.changes[0].mode
    && plan.changes[0].after == Some(artifact.files[0].hash)
  }

  /** The branch for rollbacks: the very snapshot of the plan, for its agent, project and adapter. */
  ghost predicate RollbackMatches(plan: Plan, artifact: Artifact, adapterId: string, snapshot: Snapshot) {
    && artifact.files == [] && artifact.settings == None
    && artifact.snapshotId == plan.snapshotId == Some(snapshot.id)
    && snapshot.agentId == plan.agentId && snapshot.projectId == plan.projectId && snapshot.adapterVersion == adapterId
    && RollbackAccepted(snapshot.files, plan.changes)
  }

  /** `secretFree` is what the search for secrets in the imported settings says. */
  ghost predicate Accepted(plan: Plan, artifact: Artifact, adapterId: string, snapshot: Option<Snapshot>, secretFree: bool) {
    && artifact.planId == plan.id && artifact.adapterId == adapterId
    && match plan.kind
       case Render => RenderMatches(plan, artifact)
       case Optimization => RenderMatches(plan, artifact)
       case Import => ImportMatches(plan, artifact, secretFree)
       case Rollback => snapshot.Some? && RollbackMatches(plan, artifact, adapterId, snapshot.value)
  }

  method AssertArtifactMatchesPlan(
    plan: Plan, artifact: Artifact, adapterId: string, snapshot: Option<Snapshot>, secretFree: bool) returns (ok: bool)
    ensures ok <==> Accepted(plan, artifact, adapterId, snapshot, secretFree)
  {
    if artifact.planId != plan.id || artifact.adapterId != adapterId {
      return false;
    }
    if plan.kind == Render || plan.kind == Optimization {
      ok := CheckRender(plan, artifact);
    } else if plan.kind == Import {
      ok := ImportMatches(plan, artifact, secretFree);
    } else if snapshot.None? {
      ok := false;
    } else {
      ok := CheckRollback(plan, artifact, adapterId, snapshot.value);
    }
  }

  /** The branch for rendered and optimized plans. */
  method CheckRender(plan: Plan, artifact: Artifact) returns (ok: bool)
    ensures ok <==> RenderMatches(plan, artifact)
  {
    ok := false;
    if artifact.snapshotId == None && artifact.settings == None {
      ok := FilesFit(artifact.files, plan.changes);
    }
  }

  method FilesFit(files: seq<File>, changes: seq<Change>) returns (ok: bool)
    ensures ok <==> RenderAccepted(files, changes)
  {
    UniqueCount(FilePaths(files));
    if |files| != |changes| || |Elements(FilePaths(files))| != |files| {
      return false;
    }
    for i := 0 to |changes|
      invariant forall k :: 0 <= k < i ==> exists f :: f in files && FileFits(f, changes[k])
    {
      var c := changes[i];
      var file := FindFile(files, c.path);
      FindFileFinds(files, c.path);
      if file.None? || file.value.mode != c.mode || c.operation.Delete? || c.after.None? || file.value.hash != c.after.value {
        forall f | f in files ensures !FileFits(f, c) {
          if f.path == c.path {
            OnlyFile(files, f, file.value);
          }
        }
        assert c in changes;
        return false;
      }
      assert file.value in files && FileFits(file.value, c);
    }
    ok := true;
  }

  /** The branch for rollback plans. */
  method CheckRollback(plan: Plan, artifact: Artifact, adapterId: string, snapshot: Snapshot) returns (ok: bool)
    ensures ok <==> RollbackMatches(plan, artifact, adapterId, snapshot)
  {
    if artifact.files != [] || artifact.settings != None || artifact.snapshotId != plan.snapshotId
       || plan.snapshotId != Some(snapshot.id) || snapshot.agentId != plan.agentId
       || snapshot.projectId != plan.projectId || snapshot.adapterVersion != adapterId {
      return false;
    }
    ok := StoredFit(snapshot.files, plan.changes);
  }

  method StoredFit(files: seq<Stored>, changes: seq<Change>) returns (ok: bool)
    ensures ok <==> RollbackAccepted(files, changes)
  {
    UniqueCount(ChangePaths(changes));
    if |files| != |changes| || |Elements(ChangePaths(changes))| != |changes| {
      return false;
    }
    for i := 0 to |files|
      invariant forall k :: 0 <= k < i ==> exists c :: c in changes && StoredFits(files[k], c)
    {
      var file := files[i];
      var change := FindChange(changes, file.path);
      FindChangeFinds(changes, file.path);
      if change.None? || change.value.mode != "managed-file"
         || change.value.operation != (if file.existed then Update else Delete)
         || change.value.after != file.original {
        forall c | c in changes ensures !StoredFits(file, c) {
          if c.path == file.path {
            OnlyChange(changes, c, change.value);
          }
        }
        assert file in files;
        return false;
      }
      assert change.value in changes && StoredFits(file, change.value);
    }
    ok := true;
  }

  /** Of the first `n` stored files, file `k` is the last one for its path. */
  ghost predicate LastFor(files: seq<Stored>, k: nat, n: nat)
    requires k < n <= |files|
  {
    forall m :: k < m < n ==> files[m].path != files[k].path
  }

  /** The hashes read for the first `n` stored files, path by path. */
  function ReadSoFar(files: seq<Stored>, now: seq<Option<string>>, n: nat): HashMap
    requires n <= |files| == |now|
  {
    if n == 0 then map[] else ReadSoFar(files, now, n - 1)[files[n - 1].path := now[n - 1]]
  }

  lemma {:induction false} LastReadCounts(files: seq<Stored>, now: seq<Option<string>>, n: nat, k: nat)
    requires k < n <= |files| == |now| && LastFor(files, k, n)
    ensures Look(ReadSoFar(files, now, n), files[k].path) == now[k]
  {
    if k < n - 1 {
      LastReadCounts(files, now, n - 1, k);
    }
  }

  lemma {:induction false} ReadPaths(files: seq<Stored>, now: seq<Option<string>>, n: nat, p: string)
    requires n <= |files| == |now|
    ensures p in ReadSoFar(files, now, n) <==> exists k :: 0 <= k < n && files[k].path == p
  {
    if n > 0 {
      ReadPaths(files, now, n - 1, p);
    }
  }

  /**
    `createRollbackPlan`: one change per stored file; `now[i]` is the hash its own read observed, and
    for a path that is stored twice the later read counts.
   */
  method CreateRollbackPlan(files: seq<Stored>, now: seq<Option<string>>) returns (changes: seq<Change>, pre: HashMap)
    requires |now| == |files|
    ensures |changes| == |files|
    ensures forall i :: 0 <= i < |files| ==>
              changes[i] == Change(files[i].path, if files[i].existed then Update else Delete, "managed-file", files[i].original)
    ensures forall p :: p in pre <==> exists i :: 0 <= i < |files| && files[i].path == p
    ensures forall i :: 0 <= i < |files| && (forall j :: i < j < |files| ==> files[j].path != files[i].path) ==>
              pre[files[i].path] == now[i]
  {
    changes, pre := [], map[];
    for i := 0 to |files|
      invariant |changes| == i
      invariant forall k :: 0 <= k < i ==>
                  changes[k] == Change(files[k].path, if files[k].existed then Update else Delete, "managed-file", files[k].original)
      invariant pre == ReadSoFar(files, now, i)
    {
      pre := pre[files[i].path := now[i]];
      changes := changes + [Change(files[i].path, if files[i].existed then Update else Delete, "managed-file", files[i].original)];
    }
    forall p {
      ReadPaths(files, now, |files|, p);
    }
    forall k | 0 <= k < |files| && LastFor(files, k, |files|) ensures pre[files[k].path] == now[k] {
      LastReadCounts(files, now, |files|, k);
    }
    forall i | 0 <= i < |files| && forall j :: i < j < |files| ==> files[j].path != files[i].path
      ensures pre[files[i].path] == now[i]
    {
      assert LastFor(files, i, |files|);
    }
  }

  /** A rollback plan made from a snapshot is later accepted against it, exactly when the snapshot names no path twice. */
  lemma CreatedPlanAcceptedExactlyWhen(files: seq<Stored>, changes: seq<Change>)
    requires |changes| == |files|
    requires forall i :: 0 <= i < |files| ==>
               changes[i] == Change(files[i].path, if files[i].existed then Update else Delete, "managed-file", files[i].original)
    ensures RollbackAccepted(files, changes) <==> Distinct(StoredPaths(files))
  {
    assert forall i :: 0 <= i < |files| ==> StoredFits(files[i], changes[i]);
    assert ChangePaths(changes) == StoredPaths(files);
    forall f | f in files ensures exists c :: c in changes && StoredFits(f, c) {
      var i :| 0 <= i < |files| && files[i] == f;
      assert changes[i] in changes;
    }
  }

  // ---------------------------------------------------------------- what is accepted

  /**
    A render artifact is accepted exactly when it belongs to the plan and its adapter, carries nothing
    but files, repeats no path, has as many files as there are changes, and every change is the path,
    mode and content of one of them; so no change that deletes is ever accepted.
   */
  lemma RenderAcceptedExactlyWhen(
    plan: Plan, artifact: Artifact, adapterId: string, snapshot: Option<Snapshot>, secretFree: bool)
    requires plan.kind.Render? || plan.kind.Optimization?
    ensures Accepted(plan, artifact, adapterId, snapshot, secretFree) <==>
              && artifact.planId == plan.id && artifact.adapterId == adapterId
              && artifact.snapshotId == None && artifact.settings == None
              && |artifact.files| == |plan.changes|
              && (forall i, j :: 0 <= i < j < |artifact.files| ==> artifact.files[i].path != artifact.files[j].path)
              && (forall c :: c in plan.changes ==> c.operation != Delete)
              && (set c | c in plan.changes :: (c.path, c.mode, c.after))
                 <= (set f | f in artifact.files :: (f.path, f.mode, Some(f.hash)))
  {
    var wanted := set c | c in plan.changes :: (c.path, c.mode, c.after);
    var written := set f | f in artifact.files :: (f.path, f.mode, Some(f.hash));
    forall c | c in plan.changes
      ensures (exists f :: f in artifact.files && FileFits(f, c))
              <==> !c.operation.Delete? && (c.path, c.mode, c.after) in written
    {
      if !c.operation.Delete? && (c.path, c.mode, c.after) in written {
        var f :| f in artifact.files && (f.path, f.mode, Some(f.hash)) == (c.path, c.mode, c.after);
        assert FileFits(f, c);
      }
    }
    assert wanted <= written <==> forall c :: c in plan.changes ==> (c.path, c.mode, c.after) in written;
    assert forall i :: 0 <= i < |artifact.files| ==> FilePaths(artifact.files)[i] == artifact.files[i].path;
  }

  /**
    A rollback artifact is accepted exactly when it carries nothing but the id of the plan's own
    snapshot, that snapshot was taken for the plan's agent, project and adapter, the changes repeat no
    path and are as many as the stored files, and every stored file is one of the changes: an update
    to the stored content where the file existed, and a deletion where it did not.
   */
  lemma RollbackAcceptedExactlyWhen(
    plan: Plan, artifact: Artifact, adapterId: string, snapshot: Option<Snapshot>, secretFree: bool)
    requires plan.kind.Rollback?
    ensures Accepted(plan, artifact, adapterId, snapshot, secretFree) <==>
              && artifact.planId == plan.id && artifact.adapterId == adapterId
              && snapshot.Some? && artifact.snapshotId == plan.snapshotId && plan.snapshotId == Some(snapshot.value.id)
              && artifact.files == [] && artifact.settings == None
              && snapshot.value.agentId == plan.agentId && snapshot.value.projectId == plan.projectId
              && snapshot.value.adapterVersion == adapterId
              && |snapshot.value.files| == |plan.changes|
              && (forall i, j :: 0 <= i < j < |plan.changes| ==> plan.changes[i].path != plan.changes[j].path)
              && (set f | f in snapshot.value.files ::
                    Change(f.path, if f.existed then Update else Delete, "managed-file", f.original))
                 <= (set c | c in plan.changes)
  {
    if snapshot.Some? {
      StoredAmong(snapshot.value.files, plan.changes);
    }
    assert forall i :: 0 <= i < |plan.changes| ==> ChangePaths(plan.changes)[i] == plan.changes[i].path;
  }

  lemma StoredAmong(files: seq<Stored>, changes: seq<Change>)
    ensures (forall f :: f in files ==> exists c :: c in changes && StoredFits(f, c))
            <==> (set f | f in files :: Change(f.path, if f.existed then Update else Delete, "managed-file", f.original))
                 <= (set c | c in changes)
  {
    var wanted := set f | f in files :: Change(f.path, if f.existed then Update else Delete, "managed-file", f.original);
    forall f | f in files
      ensures (exists c :: c in changes && StoredFits(f, c))
              <==> Change(f.path, if f.existed then Update else Delete, "managed-file", f.original) in changes
      ensures Change(f.path, if f.existed then Update else Delete, "managed-file", f.original) in wanted
    {
      if c :| c in changes && StoredFits(f, c) {
        assert c == Change(f.path, if f.existed then Update else Delete, "managed-file", f.original);
      }
    }
  }

  /** An imported artifact is accepted exactly when its one file is the one change and its settings hold no secret. */
  lemma ImportAcceptedExactlyWhen(
    plan: Plan, artifact: Artifact, adapterId: string, snapshot: Option<Snapshot>, secretFree: bool)
    requires plan.kind.Import?
    ensures Accepted(plan, artifact, adapterId, snapshot, secretFree) <==>
              && artifact.planId == plan.id && artifact.adapterId == adapterId
              && artifact.snapshotId == None && artifact.settings != None && secretFree
              && exists f, c :: artifact.files == [f] && plan.changes == [c]
                   && (c.path, c.mode, c.after) == (f.path, f.mode, Some(f.hash))
  {
    if |artifact.files| == 1 && |plan.changes| == 1 {
      assert artifact.files == [artifact.files[0]] && plan.changes == [plan.changes[0]];
    }
  }

  // ---------------------------------------------------------------- what an accepted artifact writes

  /** As many distinct entries, all of them among the others: then they are the same. */
  lemma Pigeonhole(a: seq<string>, b: seq<string>)
    requires |a| == |b| && Distinct(a) && Elements(a) <= Elements(b)
    ensures Elements(a) == Elements(b) && Distinct(b)
  {
    UniqueCount(a);
    UniqueCount(b);
    SubsetSize(Elements(a), Elements(b));
    if Elements(a) != Elements(b) {
      var x :| x in Elements(b) && x !in Elements(a);
      SubsetSize(Elements(a) + {x}, Elements(b));
    }
  }

  /**
    An accepted render artifact, of a plan without duplicate paths, writes exactly the approved
    changes: every file is some change with its hash, and every change some file.
   */
  lemma RenderWritesApproved(files: seq<File>, changes: seq<Change>)
    requires RenderAccepted(files, changes) && Distinct(ChangePaths(changes))
    ensures Elements(FilePaths(files)) == Elements(ChangePaths(changes))
    ensures forall f :: f in files ==> exists c :: c in changes && FileFits(f, c)
  {
    forall p | p in Elements(ChangePaths(changes)) ensures p in Elements(FilePaths(files)) {
      var i :| 0 <= i < |changes| && ChangePaths(changes)[i] == p;
      assert changes[i] in changes;
      var f :| f in files && FileFits(f, changes[i]);
      var j :| 0 <= j < |files| && files[j] == f;
      assert FilePaths(files)[j] == p;
    }
    Pigeonhole(ChangePaths(changes), FilePaths(files));
    forall f | f in files ensures exists c :: c in changes && FileFits(f, c) {
      var j :| 0 <= j < |files| && files[j] == f;
      assert FilePaths(files)[j] in Elements(FilePaths(files));
      var i :| 0 <= i < |changes| && ChangePaths(changes)[i] == f.path;
      assert changes[i] in changes;
      var g :| g in files && FileFits(g, changes[i]);
      var k :| 0 <= k < |files| && files[k] == g;
      assert FilePaths(files)[k] == FilePaths(files)[j];
      SamePlace(FilePaths(files), j, k);
    }
  }

  /**
    An accepted rollback restores every approved target, exactly when the snapshot names no path
    twice: the check compares the number of files but only the changes for duplicates.
   */
  lemma RollbackCoversExactlyWhen(files: seq<Stored>, changes: seq<Change>)
    requires RollbackAccepted(files, changes)
    ensures (forall c :: c in changes ==> exists f :: f in files && StoredFits(f, c)) <==> Distinct(StoredPaths(files))
  {
    StoredAmongChanges(files, changes);
    if forall c :: c in changes ==> exists f :: f in files && StoredFits(f, c) {
      forall p | p in Elements(ChangePaths(changes)) ensures p in Elements(StoredPaths(files)) {
        var i :| 0 <= i < |changes| && ChangePaths(changes)[i] == p;
        assert changes[i] in changes;
        var f :| f in files && StoredFits(f, changes[i]);
        var j :| 0 <= j < |files| && files[j] == f;
        assert StoredPaths(files)[j] == p;
      }
      Pigeonhole(ChangePaths(changes), StoredPaths(files));
    }
    if Distinct(StoredPaths(files)) {
      Pigeonhole(StoredPaths(files), ChangePaths(changes));
      forall c | c in changes ensures exists f :: f in files && StoredFits(f, c) {
        CoveredBy(files, changes, c);
      }
    }
  }

  /** A file is written as some change says; for an import, whatever its operation. */
  predicate WrittenAs(f: File, c: Change) {
    f.path == c.path && f.mode == c.mode && c.after == Some(f.hash)
  }

  /**
    Whatever the kind of the plan: the targets that an accepted artifact writes are exactly those of the
    approved changes, each with the approved content, or, for a rollback, exactly when its snapshot
    names no path twice.
   */
  lemma AcceptedWritesApproved(plan: Plan, artifact: Artifact, adapterId: string, snapshot: Option<Snapshot>, secretFree: bool)
    requires Accepted(plan, artifact, adapterId, snapshot, secretFree) && Distinct(ChangePaths(plan.changes))
    ensures !plan.kind.Rollback? ==>
              && Elements(FilePaths(artifact.files)) == Elements(ChangePaths(plan.changes))
              && forall f :: f in artifact.files ==> exists c :: c in plan.changes && WrittenAs(f, c)
    ensures plan.kind.Rollback? ==>
              && snapshot.Some?
              && (Elements(StoredPaths(snapshot.value.files)) == Elements(ChangePaths(plan.changes))
                  <==> Distinct(StoredPaths(snapshot.value.files)))
  {
    hide Distinct, Elements;
    if plan.kind.Rollback? {
      StoredAmongChanges(snapshot.value.files, plan.changes);
      SameSizeExactlyWhen(StoredPaths(snapshot.value.files), ChangePaths(plan.changes));
    } else if plan.kind.Import? {
      assert FilePaths(artifact.files) == ChangePaths(plan.changes);
      assert plan.changes[0] in plan.changes && WrittenAs(artifact.files[0], plan.changes[0]);
    } else {
      RenderWritesApproved(artifact.files, plan.changes);
      forall f | f in artifact.files ensures exists c :: c in plan.changes && WrittenAs(f, c) {
        var c :| c in plan.changes && FileFits(f, c);
        assert WrittenAs(f, c);
      }
    }
  }

  lemma SameSizeExactlyWhen(a: seq<string>, b: seq<string>)
    requires |a| == |b| && Distinct(b) && Elements(a) <= Elements(b)
    ensures Elements(a) == Elements(b) <==> Distinct(a)
  {
    UniqueCount(a);
    UniqueCount(b);
    if Distinct(a) {
      Pigeonhole(a, b);
    }
  }

  lemma StoredAmongChanges(files: seq<Stored>, changes: seq<Change>)
    requires forall f :: f in files ==> exists c :: c in changes && StoredFits(f, c)
    ensures Elements(StoredPaths(files)) <= Elements(ChangePaths(changes))
  {
    forall p | p in Elements(StoredPaths(files)) ensures p in Elements(ChangePaths(changes)) {
      var j :| 0 <= j < |files| && StoredPaths(files)[j] == p;
      assert files[j] in files;
      var c :| c in changes && StoredFits(files[j], c);
      var i :| 0 <= i < |changes| && changes[i] == c;
      assert ChangePaths(changes)[i] == p;
    }
  }

  lemma CoveredBy(files: seq<Stored>, changes: seq<Change>, c: Change)
    requires Distinct(ChangePaths(changes)) && c in changes
    requires Elements(StoredPaths(files)) == Elements(ChangePaths(changes))
    requires forall f :: f in files ==> exists x :: x in changes && StoredFits(f, x)
    ensures exists f :: f in files && StoredFits(f, c)
  {
    var i :| 0 <= i < |changes| && changes[i] == c;
    assert ChangePaths(changes)[i] in Elements(ChangePaths(changes));
    var j :| 0 <= j < |files| && StoredPaths(files)[j] == c.path;
    assert files[j] in files;
    var x :| x in changes && StoredFits(files[j], x);
    var k :| 0 <= k < |changes| && changes[k] == x;
    assert ChangePaths(changes)[k] == ChangePaths(changes)[i];
    SamePlace(ChangePaths(changes), i, k);
  }

  /** Two copies of one stored file stand in for two approved changes, and the second is not covered. */
  lemma DuplicateStandsIn()
    ensures var files := [Stored("a", true, Some("x")), Stored("a", true, Some("x"))];
            var changes := [Change("a", Update, "managed-file", Some("x")), Change("b", Update, "managed-file", Some("y"))];
            && RollbackAccepted(files, changes)
            && !(exists f :: f in files && StoredFits(f, changes[1]))
  {
    var files := [Stored("a", true, Some("x")), Stored("a", true, Some("x"))];
    var changes := [Change("a", Update, "managed-file", Some("x")), Change("b", Update, "managed-file", Some("y"))];
    assert changes[0] in changes && StoredFits(files[0], changes[0]);
    assert "a" != "b";
  }
}

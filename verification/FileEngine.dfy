/**
  The file engine on its own: lock, check, snapshot, prune, write, unlock, and rolling a
  snapshot back. The methods run the source's loops against a specification of the disk;
  the lemmas say what applying and rolling back do to it.
 */
module FileEngine {
  import opened Prelude
  import opened FileLocks

  /** Snapshot directory names and creation times, each in the order the pruning sort gives them. */
  type Id = nat

  datatype SnapshotFile = SnapshotFile(target: Path, existed: bool, original: Option<string>)

  datatype Snapshot = Snapshot(id: Id, createdAt: nat, files: seq<SnapshotFile>)

  datatype Refusal =
    | DuplicateTargets | TargetLocked | PreconditionFailed | PayloadMissing | PayloadCorrupt | ReconciliationRequired

  datatype Outcome = Applied(snapshot: Snapshot) | Refused(code: Refusal)

  /** Target files, recognised snapshots, payload files per snapshot directory, and lock files. */
  datatype Disk = Disk(
    files: Files,
    snapshots: map<Id, Snapshot>,
    payloads: map<Id, map<Path, string>>,
    locks: set<Path>)

  // ---------------------------------------------------------------- pruning

  /** Newest first: later creation, then greater name. */
  predicate Newer(a: Snapshot, b: Snapshot) {
    a.createdAt > b.createdAt || (a.createdAt == b.createdAt && a.id > b.id)
  }

  ghost predicate ById(snapshots: map<Id, Snapshot>) {
    forall id :: id in snapshots ==> snapshots[id].id == id
  }

  /** `kept` is what pruning may keep: the current one and the newest others, within the count. */
  ghost predicate Retains(snapshots: map<Id, Snapshot>, current: Id, retention: nat, kept: set<Id>) {
    && kept <= snapshots.Keys + {current}
    && current in kept
    && |kept| <= retention
    && (forall a, b :: a in kept && a != current && b in snapshots && b !in kept ==> Newer(snapshots[a], snapshots[b]))
    && (|kept| < retention ==> snapshots.Keys <= kept)
  }

  /** The retained set is determined by the snapshots, the current one and the count. */
  lemma RetainsUnique(snapshots: map<Id, Snapshot>, current: Id, retention: nat, a: set<Id>, b: set<Id>)
    requires Retains(snapshots, current, retention, a) && Retains(snapshots, current, retention, b)
    ensures a == b
  {
    if x :| x in a && x !in b {
      if y :| y in b && y !in a {
        assert false;
      }
      SmallerSubset(b, a);
    } else if a != b {
      SmallerSubset(a, b);
    }
  }

  lemma SmallerSubset(a: set<Id>, b: set<Id>)
    requires a < b
    ensures |a| < |b|
  {
    var x :| x in b && x !in a;
    SubsetSize(a, b - {x});
  }

  /** `kept` and `others` split the snapshots, every kept one but the current newer than every other. */
  ghost predicate NewestKept(snapshots: map<Id, Snapshot>, current: Id, kept: set<Id>, others: set<Id>) {
    && kept + others == snapshots.Keys + {current} && kept !! others && current in kept
    && forall a, b :: a in kept && a != current && b in others ==> Newer(snapshots[a], snapshots[b])
  }

  lemma KeepOneMore(snapshots: map<Id, Snapshot>, current: Id, kept: set<Id>, others: set<Id>, m: Id)
    requires NewestKept(snapshots, current, kept, others) && m in others
    requires forall x :: x in others && x != m ==> Newer(snapshots[m], snapshots[x])
    ensures NewestKept(snapshots, current, kept + {m}, others - {m}) && |kept + {m}| == |kept| + 1
  {
  }

  lemma KeptIsRetained(snapshots: map<Id, Snapshot>, current: Id, retention: nat, kept: set<Id>, others: set<Id>)
    requires NewestKept(snapshots, current, kept, others) && |kept| <= retention
    requires |kept| >= retention || others == {}
    ensures Retains(snapshots, current, retention, kept)
    ensures current in snapshots ==> others == snapshots.Keys - kept
  {
  }

  /** Pruning always has such a set: keep the newest other one until the count is reached. */
  lemma SomeRetained(snapshots: map<Id, Snapshot>, current: Id, retention: nat) returns (kept: set<Id>)
    requires ById(snapshots) && retention >= 1
    ensures Retains(snapshots, current, retention, kept)
  {
    kept := {current};
    var others := snapshots.Keys - {current};
    while |kept| < retention && others != {}
      invariant NewestKept(snapshots, current, kept, others) && |kept| <= retention
      decreases others
    {
      var m := NewestOf(snapshots, others);
      KeepOneMore(snapshots, current, kept, others, m);
      kept := kept + {m};
      others := others - {m};
    }
    KeptIsRetained(snapshots, current, retention, kept, others);
  }

  lemma NewestOf(snapshots: map<Id, Snapshot>, ids: set<Id>) returns (m: Id)
    requires ById(snapshots) && ids != {} && ids <= snapshots.Keys
    ensures m in ids && forall x :: x in ids && x != m ==> Newer(snapshots[m], snapshots[x])
  {
    m :| m in ids;
    if ids != {m} {
      var n := NewestOf(snapshots, ids - {m});
      if Newer(snapshots[n], snapshots[m]) {
        m := n;
      }
    }
  }

  ghost function Keep(snapshots: map<Id, Snapshot>, current: Id, retention: nat): (kept: set<Id>)
    requires ById(snapshots) && retention >= 1
    ensures Retains(snapshots, current, retention, kept)
  {
    assert exists kept :: Retains(snapshots, current, retention, kept) by {
      var kept := SomeRetained(snapshots, current, retention);
    }
    var kept :| Retains(snapshots, current, retention, kept);
    kept
  }

  /** Only recognised snapshots that are not retained are deleted, with their payloads. */
  ghost function Pruned(d: Disk, current: Id, retention: nat): Disk
    requires ById(d.snapshots) && retention >= 1
  {
    var gone := d.snapshots.Keys - Keep(d.snapshots, current, retention);
    d.(snapshots := d.snapshots - gone, payloads := d.payloads - gone)
  }

  // ---------------------------------------------------------------- the specification

  function TakeSnapshot(files: Files, targets: seq<Path>, id: Id, now: nat): Snapshot {
    Snapshot(id, now, seq(|targets|, i requires 0 <= i < |targets| =>
      SnapshotFile(targets[i], targets[i] in files, Observed(files, targets[i]))))
  }

  function Copies(files: Files, targets: seq<Path>): map<Path, string> {
    map p | p in targets && p in files :: files[p]
  }

  /** Snapshot and prune: what both operations do once nothing refuses them. */
  ghost function Saved(d: Disk, id: Id, now: nat, retention: nat, targets: seq<Path>): Disk
    requires ById(d.snapshots) && retention >= 1
  {
    var snapshot := TakeSnapshot(d.files, targets, id, now);
    Pruned(d.(snapshots := d.snapshots[id := snapshot], payloads := d.payloads[id := Copies(d.files, targets)]), id, retention)
  }

  ghost function Commit(d: Disk, id: Id, now: nat, retention: nat, r: Request): (Disk, Outcome)
    requires ById(d.snapshots) && retention >= 1
  {
    (Saved(d, id, now, retention, r.targets).(files := Alone(d.files, r)), Applied(TakeSnapshot(d.files, r.targets, id, now)))
  }

  predicate Lockable(d: Disk, order: seq<Path>) {
    Distinct(order) && Elements(order) !! d.locks
  }

  ghost function ApplySpec(d: Disk, id: Id, now: nat, retention: nat, r: Request): (Disk, Outcome)
    requires ById(d.snapshots) && retention >= 1
  {
    if !Distinct(r.targets) then (d, Refused(DuplicateTargets))
    else if !Lockable(d, r.order) then (d, Refused(TargetLocked))
    else if !Applicable(d.files, r) then (d, Refused(PreconditionFailed))
    else Commit(d, id, now, retention, r)
  }

  /** What verifying the payloads of a snapshot finds wrong first. */
  function FirstBad(files: seq<SnapshotFile>, dir: map<Path, string>): Option<Refusal> {
    if files == [] then None
    else
      var f := files[0];
      if !f.existed then FirstBad(files[1..], dir)
      else if f.target !in dir then Some(PayloadMissing)
      else if f.original != Some(dir[f.target]) then Some(PayloadCorrupt)
      else FirstBad(files[1..], dir)
  }

  /** The payloads that verifying reads into memory. */
  function Verified(files: seq<SnapshotFile>, dir: map<Path, string>): map<Path, string> {
    map f | f in files && f.existed && f.target in dir :: f.target := dir[f.target]
  }

  /** Writing them back: an absent target is removed, and a payload that is not there stops the loop. */
  function WriteBack(files: Files, todo: seq<SnapshotFile>, verified: map<Path, string>, committed: nat)
    : (Files, Option<Refusal>)
    decreases todo
  {
    if todo == [] then (files, None)
    else
      var f := todo[0];
      if !f.existed then WriteBack(SetFile(files, f.target, None), todo[1..], verified, committed + 1)
      else if f.target !in verified then (files, Some(if committed > 0 then ReconciliationRequired else PayloadMissing))
      else WriteBack(SetFile(files, f.target, Some(verified[f.target])), todo[1..], verified, committed + 1)
  }

  function PayloadDir(d: Disk, id: Id): map<Path, string> {
    if id in d.payloads then d.payloads[id] else map[]
  }

  function Targets(s: Snapshot): seq<Path> {
    seq(|s.files|, i requires 0 <= i < |s.files| => s.files[i].target)
  }

  /** What the manifest says each target held. */
  function RollbackWrites(files: seq<SnapshotFile>): HashMap {
    if files == [] then map[]
    else
      var f := files[|files| - 1];
      RollbackWrites(files[..|files| - 1])[f.target := if f.existed then f.original else None]
  }

  function RollbackRequest(source: Snapshot, order: seq<Path>, expected: HashMap): Request {
    Request(Targets(source), order, expected, RollbackWrites(source.files))
  }

  ghost function RollbackSpec(
    d: Disk, id: Id, now: nat, retention: nat, source: Snapshot, order: seq<Path>, expected: HashMap): (Disk, Outcome)
    requires ById(d.snapshots) && retention >= 1
  {
    var r := RollbackRequest(source, order, expected);
    var dir := PayloadDir(d, source.id);
    var bad := FirstBad(source.files, dir);
    if !Lockable(d, order) then (d, Refused(TargetLocked))
    else if !Applicable(d.files, r) then (d, Refused(PreconditionFailed))
    else if bad.Some? then (d, Refused(bad.value))
    else
      var (files, stopped) := WriteBack(d.files, source.files, Verified(source.files, dir), 0);
      (Saved(d, id, now, retention, r.targets).(files := files),
       if stopped.Some? then Refused(stopped.value) else Applied(TakeSnapshot(d.files, r.targets, id, now)))
  }

  // ---------------------------------------------------------------- when an operation is refused

  /**
    An apply succeeds exactly when no target is named twice, every lock is free and asked for once,
    and every target is at its recorded hash. A refusal carries the code of the first of these that
    fails and leaves the whole disk as it was.
   */
  lemma AppliedExactlyWhen(d: Disk, id: Id, now: nat, retention: nat, r: Request)
    requires ById(d.snapshots) && retention >= 1
    ensures var (d', o) := ApplySpec(d, id, now, retention, r);
            var once := forall i, j :: 0 <= i < j < |r.targets| ==> r.targets[i] != r.targets[j];
            var free := (forall i, j :: 0 <= i < j < |r.order| ==> r.order[i] != r.order[j]) && forall p :: p in r.order ==> p !in d.locks;
            var asRecorded := forall p :: p in r.targets ==> Observed(d.files, p) == Look(r.pre, p);
            && (o.Applied? <==> once && free && asRecorded)
            && (o == Refused(DuplicateTargets) <==> !once)
            && (o == Refused(TargetLocked) <==> once && !free)
            && (o == Refused(PreconditionFailed) <==> once && free && !asRecorded)
            && (o.Refused? ==> d' == d)
  {
    LockableMeans(d, r.order);
    ApplicableMeans(d.files, r);
    hide Lockable, Applicable, Saved, TakeSnapshot, Alone;
  }

  /**
    What a successful apply leaves: every target as asked for and every other file as it was, the locks
    as they were, and a snapshot that recorded each target with a copy of what was there.
   */
  lemma AppliedMeans(d: Disk, id: Id, now: nat, retention: nat, r: Request)
    requires ById(d.snapshots) && retention >= 1 && ApplySpec(d, id, now, retention, r).1.Applied?
    ensures var (d', o) := ApplySpec(d, id, now, retention, r);
            && (forall p :: Observed(d'.files, p) == if p in r.targets then Look(r.writes, p) else Observed(d.files, p))
            && d'.locks == d.locks
            && id in d'.snapshots && d'.snapshots[id] == o.snapshot && id in d'.payloads
            && Records(o.snapshot, d'.payloads[id], d.files, r.targets, id, now)
  {
    CurrentSurvives(d, id, now, retention, r);
    SnapshotRecords(d.files, r.targets, id, now);
    forall p ensures Observed(Alone(d.files, r), p) == if p in r.targets then Look(r.writes, p) else Observed(d.files, p) {
      AloneAt(d.files, r, p);
    }
  }

  /** The snapshot names these targets in order, with their contents, and `copies` has each that was there. */
  ghost predicate Records(
    snapshot: Snapshot, copies: map<Path, string>, files: Files, targets: seq<Path>, id: Id, now: nat) {
    && snapshot.id == id && snapshot.createdAt == now && |snapshot.files| == |targets|
    && (forall i :: 0 <= i < |targets| ==>
          && snapshot.files[i].target == targets[i]
          && snapshot.files[i].existed == (targets[i] in files)
          && snapshot.files[i].original == (if targets[i] in files then Some(files[targets[i]]) else None))
    && (forall p :: p in copies <==> p in targets && p in files)
    && (forall p :: p in copies ==> copies[p] == files[p])
  }

  lemma SnapshotRecords(files: Files, targets: seq<Path>, id: Id, now: nat)
    ensures Records(TakeSnapshot(files, targets, id, now), Copies(files, targets), files, targets, id, now)
  {
  }

  lemma LockableMeans(d: Disk, order: seq<Path>)
    ensures Lockable(d, order) <==>
              (forall i, j :: 0 <= i < j < |order| ==> order[i] != order[j]) && forall p :: p in order ==> p !in d.locks
  {
    assert forall p :: p in order <==> p in Elements(order);
  }

  lemma ApplicableMeans(files: Files, r: Request)
    ensures Applicable(files, r) <==> forall p :: p in r.targets ==> Observed(files, p) == Look(r.pre, p)
  {
  }

  /** The payload of one file of the snapshot is there and is what the manifest says. */
  predicate GoodPayload(f: SnapshotFile, dir: map<Path, string>) {
    !f.existed || (f.target in dir && f.original == Some(dir[f.target]))
  }

  /** The first bad payload decides the refusal. */
  lemma {:induction false} FirstBadMeans(files: seq<SnapshotFile>, dir: map<Path, string>)
    ensures FirstBad(files, dir) == None <==> forall f :: f in files ==> GoodPayload(f, dir)
    ensures forall bad :: FirstBad(files, dir) == Some(bad) ==>
              exists i :: 0 <= i < |files| && !GoodPayload(files[i], dir) && (forall k :: 0 <= k < i ==> GoodPayload(files[k], dir))
                && bad == if files[i].target in dir then PayloadCorrupt else PayloadMissing
  {
    if files != [] {
      var rest := files[1..];
      assert files == [files[0]] + rest;
      FirstBadMeans(rest, dir);
      if GoodPayload(files[0], dir) && FirstBad(rest, dir).Some? {
        var i :| 0 <= i < |rest| && !GoodPayload(rest[i], dir) && (forall k :: 0 <= k < i ==> GoodPayload(rest[k], dir))
          && FirstBad(rest, dir).value == if rest[i].target in dir then PayloadCorrupt else PayloadMissing;
        assert files[i + 1] == rest[i];
        forall k | 0 <= k < i + 1 ensures GoodPayload(files[k], dir) {
          if k > 0 {
            assert files[k] == rest[k - 1];
          }
        }
      }
    }
  }

  /**
    A rollback succeeds exactly when every lock is free and asked for once, every target is at its
    expected hash, and every payload is there unaltered. A refusal carries the code of the first of
    these that fails and leaves the whole disk as it was.
   */
  lemma RolledBackExactlyWhen(
    d: Disk, id: Id, now: nat, retention: nat, source: Snapshot, order: seq<Path>, expected: HashMap)
    requires ById(d.snapshots) && retention >= 1
    ensures var (d', o) := RollbackSpec(d, id, now, retention, source, order, expected);
            var dir := if source.id in d.payloads then d.payloads[source.id] else map[];
            var free := (forall i, j :: 0 <= i < j < |order| ==> order[i] != order[j]) && forall p :: p in order ==> p !in d.locks;
            var asExpected := forall f :: f in source.files ==> Observed(d.files, f.target) == Look(expected, f.target);
            var intact := forall f :: f in source.files && f.existed ==> f.target in dir && f.original == Some(dir[f.target]);
            && (o.Applied? <==> free && asExpected && intact)
            && (o == Refused(TargetLocked) <==> !free)
            && (o == Refused(PreconditionFailed) <==> free && !asExpected)
            && (free && asExpected && !intact ==> o == Refused(PayloadMissing) || o == Refused(PayloadCorrupt))
            && (o.Refused? ==> d' == d)
  {
    var r := RollbackRequest(source, order, expected);
    var dir := PayloadDir(d, source.id);
    LockableMeans(d, order);
    ApplicableMeans(d.files, r);
    TargetsAreFiles(source);
    FirstBadMeans(source.files, dir);
    if FirstBad(source.files, dir).None? {
      VerifiedWritesAll(d.files, source, order, expected, dir);
    }
    hide Lockable, Applicable, Saved, FirstBad, WriteBack;
  }

  // ---------------------------------------------------------------- what rolling back restores

  lemma {:induction false} RollbackWritesAt(files: seq<SnapshotFile>, i: nat)
    requires i < |files| && (forall j :: i < j < |files| ==> files[j].target != files[i].target)
    ensures files[i].target in RollbackWrites(files)
    ensures RollbackWrites(files)[files[i].target] == if files[i].existed then files[i].original else None
  {
    if i < |files| - 1 {
      RollbackWritesAt(files[..|files| - 1], i);
    }
  }

  /** Of several entries for one target the last one counts. */
  lemma {:induction false} RollbackWritesCons(files: seq<SnapshotFile>)
    requires files != []
    ensures var f := files[0];
            RollbackWrites(files) == map[f.target := if f.existed then f.original else None] + RollbackWrites(files[1..])
  {
    var n := |files| - 1;
    if n > 0 {
      RollbackWritesCons(files[..n]);
      assert files[..n][1..] == files[1..][..n - 1];
    }
  }

  lemma {:induction false} RollbackWritesKeys(files: seq<SnapshotFile>)
    ensures forall p :: p in RollbackWrites(files) <==> exists f :: f in files && f.target == p
  {
    if files != [] {
      var n := |files| - 1;
      RollbackWritesKeys(files[..n]);
      assert files == files[..n] + [files[n]];
    }
  }

  /** Every payload that is to be written back has been read, and is what the manifest says. */
  ghost predicate Complete(todo: seq<SnapshotFile>, verified: map<Path, string>) {
    forall f :: f in todo && f.existed ==> f.target in verified && f.original == Some(verified[f.target])
  }

  lemma {:induction false} VerifiedIsComplete(files: seq<SnapshotFile>, all: seq<SnapshotFile>, dir: map<Path, string>)
    requires FirstBad(files, dir) == None && forall f :: f in files ==> f in all
    ensures Complete(files, Verified(all, dir))
  {
    if files != [] {
      assert files == [files[0]] + files[1..];
      VerifiedIsComplete(files[1..], all, dir);
    }
  }

  lemma {:induction false} WriteBackAt(files: Files, todo: seq<SnapshotFile>, verified: map<Path, string>, committed: nat, p: Path)
    requires Complete(todo, verified)
    ensures var (after, stopped) := WriteBack(files, todo, verified, committed);
            stopped.None?
            && Observed(after, p) == if p in RollbackWrites(todo) then RollbackWrites(todo)[p] else Observed(files, p)
    decreases todo
  {
    if todo != [] {
      var f := todo[0];
      assert todo == [f] + todo[1..];
      RollbackWritesCons(todo);
      WriteBackAt(SetFile(files, f.target, if f.existed then Some(verified[f.target]) else None), todo[1..], verified,
                  committed + 1, p);
    }
  }

  /** Once the payloads are verified, the loop writes all of them: what the manifest recorded. */
  lemma VerifiedWritesAll(files: Files, source: Snapshot, order: seq<Path>, expected: HashMap, dir: map<Path, string>)
    requires FirstBad(source.files, dir) == None
    ensures WriteBack(files, source.files, Verified(source.files, dir), 0)
            == (Alone(files, RollbackRequest(source, order, expected)), None)
  {
    var r := RollbackRequest(source, order, expected);
    var (after, stopped) := WriteBack(files, source.files, Verified(source.files, dir), 0);
    VerifiedIsComplete(source.files, source.files, dir);
    RollbackWritesKeys(source.files);
    TargetsAreFiles(source);
    assert stopped.None? by { WriteBackAt(files, source.files, Verified(source.files, dir), 0, ""); }
    forall p ensures Observed(after, p) == Observed(Alone(files, r), p) {
      WriteBackAt(files, source.files, Verified(source.files, dir), 0, p);
      AloneAt(files, r, p);
    }
    SameFiles(after, Alone(files, r));
  }

  lemma TargetsAreFiles(source: Snapshot)
    ensures forall p :: p in Targets(source) <==> exists f :: f in source.files && f.target == p
  {
    forall f | f in source.files ensures f.target in Targets(source) {
      var i :| 0 <= i < |source.files| && source.files[i] == f;
      assert Targets(source)[i] == f.target;
    }
  }

  /** Writing back a snapshot of `before` puts every target as it was, absence included. */
  lemma SnapshotWritesBack(before: Files, targets: seq<Path>, id: Id, now: nat, p: Path)
    requires Distinct(targets) && p in targets
    ensures Look(RollbackWrites(TakeSnapshot(before, targets, id, now).files), p) == Observed(before, p)
  {
    var files := TakeSnapshot(before, targets, id, now).files;
    var i :| 0 <= i < |targets| && targets[i] == p;
    assert forall j :: i < j < |files| ==> files[j].target == targets[j];
    RollbackWritesAt(files, i);
  }

  lemma {:induction false} OwnCopiesVerify(files: seq<SnapshotFile>, before: Files, targets: seq<Path>)
    requires forall f :: f in files ==> f.target in targets && f.existed == (f.target in before) &&
                                        f.original == Observed(before, f.target)
    ensures FirstBad(files, Copies(before, targets)) == None
  {
    if files != [] {
      assert files[0] in files;
      OwnCopiesVerify(files[1..], before, targets);
    }
  }

  /** The snapshot just taken survives pruning with its payloads, whatever the count. */
  lemma CurrentSurvives(d: Disk, id: Id, now: nat, retention: nat, r: Request)
    requires ById(d.snapshots) && retention >= 1
    ensures var d' := Saved(d, id, now, retention, r.targets);
            && ById(d'.snapshots) && d'.locks == d.locks
            && id in d'.snapshots && PayloadDir(d', id) == Copies(d.files, r.targets)
  {
  }

  /**
    Rolling back to a snapshot of `before`, on any later disk that still has its payloads:
    when nothing refuses it, the targets are as before and every other file is left alone.
   */
  lemma RollbackRestores(
    before: Files, targets: seq<Path>, id: Id, now: nat, d: Disk,
    id': Id, now': nat, retention: nat, order: seq<Path>, expected: HashMap)
    requires ById(d.snapshots) && retention >= 1 && Distinct(targets)
    requires PayloadDir(d, id) == Copies(before, targets)
    requires Lockable(d, order) && Applicable(d.files, RollbackRequest(TakeSnapshot(before, targets, id, now), order, expected))
    ensures var (d', o) := RollbackSpec(d, id', now', retention, TakeSnapshot(before, targets, id, now), order, expected);
            && o == Applied(TakeSnapshot(d.files, targets, id', now'))
            && (forall p :: Observed(d'.files, p) == if p in targets then Observed(before, p) else Observed(d.files, p))
            && PayloadDir(d', id') == Copies(d.files, targets) && ById(d'.snapshots)
            && d'.locks == d.locks
  {
    var source := TakeSnapshot(before, targets, id, now);
    var r := RollbackRequest(source, order, expected);
    OwnCopiesVerify(source.files, before, targets);
    VerifiedWritesAll(d.files, source, order, expected, PayloadDir(d, id));
    assert Targets(source) == targets;
    CurrentSurvives(d, id', now', retention, r);
    forall p
      ensures Observed(Alone(d.files, r), p) == if p in targets then Observed(before, p) else Observed(d.files, p)
    {
      AloneAt(d.files, r, p);
      if p in targets {
        SnapshotWritesBack(before, targets, id, now, p);
      }
    }
  }

  lemma SameFiles(a: Files, b: Files)
    requires forall p :: Observed(a, p) == Observed(b, p)
    ensures a == b
  {
    assert forall p :: p in a <==> Observed(a, p).Some?;
    assert forall p :: p in b <==> Observed(b, p).Some?;
    forall p | p in a ensures a[p] == b[p] {
      assert Observed(a, p) == Observed(b, p);
    }
  }

  /**
    Apply, roll back, roll the rollback back: the second disk has the original files again and
    the third the applied ones, for every retention count, even when pruning deletes the payloads
    of the snapshot being restored before they are written back.
   */
  lemma RoundTrip(
    d0: Disk, id1: Id, now1: nat, id2: Id, now2: nat, id3: Id, now3: nat, retention: nat,
    r: Request, back: HashMap, again: HashMap)
    requires ById(d0.snapshots) && retention >= 1 && WfRequest(r)
    requires ApplySpec(d0, id1, now1, retention, r).1.Applied?
    requires var (d1, o1) := ApplySpec(d0, id1, now1, retention, r);
             forall p :: p in r.targets ==> Look(back, p) == Observed(d1.files, p)
    requires forall p :: p in r.targets ==> Look(again, p) == Observed(d0.files, p)
    ensures var (d1, o1) := ApplySpec(d0, id1, now1, retention, r);
            && ById(d1.snapshots)
            && var (d2, o2) := RollbackSpec(d1, id2, now2, retention, o1.snapshot, r.order, back);
               && o2.Applied? && d2.files == d0.files && d2.locks == d0.locks && ById(d2.snapshots)
               && var (d3, o3) := RollbackSpec(d2, id3, now3, retention, o2.snapshot, r.order, again);
                  o3.Applied? && d3.files == d1.files && d3.locks == d0.locks
  {
    hide Saved, FirstBad, Verified, WriteBack, RollbackSpec, Applicable, Alone, WfRequest;
    var (d1, o1) := ApplySpec(d0, id1, now1, retention, r);
    Applies(d0, id1, now1, retention, r);
    BackTo(d0.files, r.targets, id1, now1, d1, id2, now2, retention, r.order, back);
    var d2 := RollbackSpec(d1, id2, now2, retention, o1.snapshot, r.order, back).0;
    BackTo(d1.files, r.targets, id2, now2, d2, id3, now3, retention, r.order, again);
  }

  /** What a successful apply leaves for a rollback. */
  lemma Applies(d0: Disk, id: Id, now: nat, retention: nat, r: Request)
    requires ById(d0.snapshots) && retention >= 1 && ApplySpec(d0, id, now, retention, r).1.Applied?
    ensures var (d1, o1) := ApplySpec(d0, id, now, retention, r);
            && o1 == Applied(TakeSnapshot(d0.files, r.targets, id, now))
            && ById(d1.snapshots) && d1.locks == d0.locks && PayloadDir(d1, id) == Copies(d0.files, r.targets)
            && Distinct(r.targets) && Lockable(d0, r.order)
            && forall p :: p !in r.targets ==> Observed(d1.files, p) == Observed(d0.files, p)
  {
    CurrentSurvives(d0, id, now, retention, r);
    forall p ensures p !in r.targets ==> Observed(Alone(d0.files, r), p) == Observed(d0.files, p) {
      AloneAt(d0.files, r, p);
    }
  }

  /** Rolling back a disk that differs from `before` at the targets only brings `before` back. */
  lemma BackTo(
    before: Files, targets: seq<Path>, id: Id, now: nat, d: Disk,
    id': Id, now': nat, retention: nat, order: seq<Path>, expected: HashMap)
    requires ById(d.snapshots) && retention >= 1 && Distinct(targets) && Lockable(d, order)
    requires PayloadDir(d, id) == Copies(before, targets)
    requires forall p :: p in targets ==> Look(expected, p) == Observed(d.files, p)
    requires forall p :: p !in targets ==> Observed(d.files, p) == Observed(before, p)
    ensures var (d', o) := RollbackSpec(d, id', now', retention, TakeSnapshot(before, targets, id, now), order, expected);
            && o == Applied(TakeSnapshot(d.files, targets, id', now'))
            && d'.files == before && d'.locks == d.locks && ById(d'.snapshots)
            && PayloadDir(d', id') == Copies(d.files, targets)
            && forall p :: p !in targets ==> Observed(d'.files, p) == Observed(d.files, p)
  {
    hide RollbackSpec, Lockable, Distinct, Observed;
    assert Targets(TakeSnapshot(before, targets, id, now)) == targets;
    RollbackRestores(before, targets, id, now, d, id', now', retention, order, expected);
    SameFiles(RollbackSpec(d, id', now', retention, TakeSnapshot(before, targets, id, now), order, expected).0.files, before);
  }

  /**
    Pruning after a commit keeps the new snapshot and as many recognised ones as the count allows, the
    newest by creation time and then by name, each with its payloads; it deletes the others with
    theirs, and leaves unrecognised directories alone.
   */
  lemma PruningKeepsNewest(d: Disk, id: Id, now: nat, retention: nat, r: Request)
    requires ById(d.snapshots) && retention >= 1
    ensures var d' := Commit(d, id, now, retention, r).0;
            var all := d.snapshots[id := TakeSnapshot(d.files, r.targets, id, now)];
            && id in d'.snapshots
            && |d'.snapshots.Keys| == (if |all.Keys| < retention then |all.Keys| else retention)
            && (forall k :: k in d'.snapshots ==> k in all && d'.snapshots[k] == all[k])
            && (forall k, gone :: k in d'.snapshots && k != id && gone in all && gone !in d'.snapshots ==>
                  all[k].createdAt > all[gone].createdAt
                  || (all[k].createdAt == all[gone].createdAt && all[k].id > all[gone].id))
            && (forall x :: x in d.payloads && x !in all ==> x in d'.payloads && d'.payloads[x] == d.payloads[x])
            && (forall x :: x in d.payloads && x in d'.snapshots && x != id ==> x in d'.payloads && d'.payloads[x] == d.payloads[x])
            && (forall x :: x in all && x !in d'.snapshots ==> x !in d'.payloads)
  {
    hide Keep, TakeSnapshot, Alone, Pruned, Copies;
    var snapshot := TakeSnapshot(d.files, r.targets, id, now);
    var all := d.snapshots[id := snapshot];
    TakenId(d.files, r.targets, id, now);
    PrunedFacts(d.(snapshots := all, payloads := d.payloads[id := Copies(d.files, r.targets)]), id, retention);
  }

  lemma TakenId(files: Files, targets: seq<Path>, id: Id, now: nat)
    ensures TakeSnapshot(files, targets, id, now).id == id
  {
  }

  lemma KeepRetains(snapshots: map<Id, Snapshot>, current: Id, retention: nat)
    requires ById(snapshots) && retention >= 1
    ensures Retains(snapshots, current, retention, Keep(snapshots, current, retention))
  {
  }

  lemma PrunedFacts(d: Disk, id: Id, retention: nat)
    requires ById(d.snapshots) && retention >= 1 && id in d.snapshots
    ensures var d' := Pruned(d, id, retention);
            && id in d'.snapshots
            && |d'.snapshots.Keys| == (if |d.snapshots.Keys| < retention then |d.snapshots.Keys| else retention)
            && (forall k :: k in d'.snapshots ==> k in d.snapshots && d'.snapshots[k] == d.snapshots[k])
            && (forall k, gone :: k in d'.snapshots && k != id && gone in d.snapshots && gone !in d'.snapshots ==>
                  Newer(d.snapshots[k], d.snapshots[gone]))
            && (forall x :: x in d.payloads && (x !in d.snapshots || x in d'.snapshots) ==>
                  x in d'.payloads && d'.payloads[x] == d.payloads[x])
            && (forall x :: x in d.snapshots && x !in d'.snapshots ==> x !in d'.payloads)
  {
    hide Newer, ById;
    KeepRetains(d.snapshots, id, retention);
    hide Keep;
    var kept := Keep(d.snapshots, id, retention);
    KeptCount(d.snapshots, id, retention, kept);
  }

  lemma KeptCount(snapshots: map<Id, Snapshot>, id: Id, retention: nat, kept: set<Id>)
    requires Retains(snapshots, id, retention, kept) && id in snapshots
    ensures kept <= snapshots.Keys && snapshots.Keys - (snapshots.Keys - kept) == kept
    ensures |kept| == if |snapshots.Keys| < retention then |snapshots.Keys| else retention
  {
    hide Newer;
    SubsetSize(kept, snapshots.Keys);
    if |kept| < retention {
      assert kept == snapshots.Keys;
    }
  }

  lemma NothingVerified(files: seq<SnapshotFile>, dir: map<Path, string>)
    ensures Verified(files[..0], dir) == map[] && FirstBad(files[|files|..], dir) == None
  {
  }

  lemma VerifyOne(files: seq<SnapshotFile>, i: nat, dir: map<Path, string>)
    requires i < |files|
    ensures var f := files[i];
            && FirstBad(files[i..], dir)
               == (if f.existed && f.target !in dir then Some(PayloadMissing)
                   else if f.existed && f.original != Some(dir[f.target]) then Some(PayloadCorrupt)
                   else FirstBad(files[i + 1..], dir))
            && Verified(files[..i + 1], dir)
               == if f.existed && f.target in dir then Verified(files[..i], dir)[f.target := dir[f.target]]
                  else Verified(files[..i], dir)
  {
    assert files[..i + 1] == files[..i] + [files[i]];
    assert files[i..][1..] == files[i + 1..];
  }

  // ---------------------------------------------------------------- the engine

  class Engine {
    var files: Files
    var snapshots: map<Id, Snapshot>
    var payloads: map<Id, map<Path, string>>
    var locks: set<Path>
    const retention: nat

    constructor (files: Files, retention: nat)
      requires retention >= 1
      ensures this.files == files && this.retention == retention
      ensures snapshots == map[] && payloads == map[] && locks == {}
    {
      this.files := files;
      this.retention := retention;
      snapshots, payloads, locks := map[], map[], {};
    }

    ghost function TheDisk(): Disk
      reads this
    {
      Disk(files, snapshots, payloads, locks)
    }

    ghost predicate Valid()
      reads this
    {
      ById(snapshots) && retention >= 1
    }

    /** Removes the lock files, last taken first. */
    method ReleaseFileLocks(held: seq<Path>)
      modifies this`locks
      ensures locks == old(locks) - Elements(held)
    {
      var i := |held|;
      while i > 0
        invariant 0 <= i <= |held|
        invariant locks == old(locks) - Elements(held[i..])
      {
        i := i - 1;
        assert held[i..] == [held[i]] + held[i + 1..];
        locks := locks - {held[i]};
      }
      assert held[0..] == held;
    }

    /** Creates one lock file per path, exclusively; a conflict gives back exactly what was taken. */
    method AcquireFileLocks(order: seq<Path>) returns (ok: bool)
      modifies this`locks
      ensures ok <==> Lockable(old(TheDisk()), order)
      ensures locks == if ok then old(locks) + Elements(order) else old(locks)
    {
      var held: seq<Path> := [];
      ok := true;
      for i := 0 to |order|
        invariant ok && held == order[..i] && Distinct(order[..i])
        invariant Elements(held) !! old(locks) && locks == old(locks) + Elements(held)
      {
        assert order[..i + 1] == order[..i] + [order[i]];
        if order[i] in locks {
          ok := false;
          if order[i] in held {
            assert !Distinct(order);
          } else {
            assert order[i] in Elements(order);
          }
          ReleaseFileLocks(held);
          return;
        }
        locks := locks + {order[i]};
        held := held + [order[i]];
      }
      assert order[..|order|] == order;
    }

    method CheckPreconditions(r: Request) returns (ok: bool)
      ensures ok == Applicable(files, r)
    {
      for i := 0 to |r.targets|
        invariant forall j :: 0 <= j < i ==> Observed(files, r.targets[j]) == Look(r.pre, r.targets[j])
      {
        if Observed(files, r.targets[i]) != Look(r.pre, r.targets[i]) {
          return false;
        }
      }
      ok := true;
    }

    /** Copies every existing target into the snapshot directory and writes the manifest. */
    method WriteSnapshot(targets: seq<Path>, id: Id, now: nat) returns (snapshot: Snapshot)
      modifies this`snapshots, this`payloads
      ensures snapshot == TakeSnapshot(files, targets, id, now)
      ensures snapshots == old(snapshots)[id := snapshot]
      ensures payloads == old(payloads)[id := Copies(files, targets)]
    {
      var copied: seq<SnapshotFile> := [];
      var dir: map<Path, string> := map[];
      for i := 0 to |targets|
        invariant copied == TakeSnapshot(files, targets, id, now).files[..i]
        invariant dir == Copies(files, targets[..i])
      {
        var p := targets[i];
        assert targets[..i + 1] == targets[..i] + [p];
        if p in files {
          dir := dir[p := files[p]];
          copied := copied + [SnapshotFile(p, true, Some(files[p]))];
        } else {
          copied := copied + [SnapshotFile(p, false, None)];
        }
      }
      assert targets[..|targets|] == targets;
      snapshot := Snapshot(id, now, copied);
      snapshots := snapshots[id := snapshot];
      payloads := payloads[id := dir];
    }

    method FindNewest(ids: set<Id>) returns (m: Id)
      requires Valid() && ids != {} && ids <= snapshots.Keys
      ensures m in ids && forall x :: x in ids && x != m ==> Newer(snapshots[m], snapshots[x])
    {
      m :| m in ids;
      var rest := ids - {m};
      while rest != {}
        invariant m in ids && rest <= ids && m !in rest
        invariant forall x :: x in ids && x !in rest && x != m ==> Newer(snapshots[m], snapshots[x])
        decreases rest
      {
        var x :| x in rest;
        rest := rest - {x};
        if Newer(snapshots[x], snapshots[m]) {
          m := x;
        }
      }
    }

    /** Sorts the other snapshots newest first and keeps as many as the count allows. */
    method BeyondRetention(current: Id) returns (others: set<Id>)
      requires Valid() && current in snapshots
      ensures others == snapshots.Keys - Keep(snapshots, current, retention)
    {
      var retained := {current};
      others := snapshots.Keys - {current};
      assert NewestKept(snapshots, current, retained, others);
      hide NewestKept, Retains, Newer;
      while |retained| < retention && others != {}
        invariant NewestKept(snapshots, current, retained, others) && |retained| <= retention
        invariant others <= snapshots.Keys
        decreases others
      {
        var m := FindNewest(others);
        KeepOneMore(snapshots, current, retained, others, m);
        retained := retained + {m};
        others := others - {m};
      }
      KeptIsRetained(snapshots, current, retention, retained, others);
      RetainsUnique(snapshots, current, retention, retained, Keep(snapshots, current, retention));
    }

    /** Deletes the recognised snapshots that are not retained. */
    method PruneSnapshots(current: Id)
      requires Valid() && current in snapshots
      modifies this`snapshots, this`payloads
      ensures TheDisk() == Pruned(old(TheDisk()), current, retention) && Valid()
    {
      var gone := BeyondRetention(current);
      snapshots := snapshots - gone;
      payloads := payloads - gone;
    }

    /** Writes or removes each target in turn. */
    method WriteTargets(r: Request)
      modifies this`files
      ensures files == Alone(old(files), r)
    {
      for i := 0 to |r.targets|
        invariant forall p :: Observed(files, p) ==
                              if p in r.targets[..i] then Look(r.writes, p) else Observed(old(files), p)
      {
        assert r.targets[..i + 1] == r.targets[..i] + [r.targets[i]];
        files := SetFile(files, r.targets[i], Look(r.writes, r.targets[i]));
      }
      assert r.targets[..|r.targets|] == r.targets;
      forall p ensures Observed(files, p) == Observed(Alone(old(files), r), p) {
        AloneAt(old(files), r, p);
      }
      SameFiles(files, Alone(old(files), r));
    }

    method Apply(id: Id, now: nat, r: Request) returns (o: Outcome)
      requires Valid() && WfRequest(r)
      modifies this
      ensures Valid()
      ensures (TheDisk(), o) == ApplySpec(old(TheDisk()), id, now, retention, r)
    {
      var unique := Elements(r.targets);
      UniqueCount(r.targets);
      if |unique| != |r.targets| {
        return Refused(DuplicateTargets);
      }
      var locked := AcquireFileLocks(r.order);
      if !locked {
        return Refused(TargetLocked);
      }
      var ok := CheckPreconditions(r);
      if !ok {
        ReleaseFileLocks(r.order);
        assert locks == old(locks);
        return Refused(PreconditionFailed);
      }
      var snapshot := WriteSnapshot(r.targets, id, now);
      PruneSnapshots(id);
      WriteTargets(r);
      ReleaseFileLocks(r.order);
      assert locks == old(locks);
      o := Applied(snapshot);
    }

    /** Reads every payload into memory before anything is written. */
    method VerifySnapshotPayloads(source: Snapshot) returns (bad: Option<Refusal>, verified: map<Path, string>)
      ensures bad == FirstBad(source.files, PayloadDir(TheDisk(), source.id))
      ensures bad.None? ==> verified == Verified(source.files, PayloadDir(TheDisk(), source.id))
    {
      var dir := if source.id in payloads then payloads[source.id] else map[];
      verified := map[];
      NothingVerified(source.files, dir);
      hide Verified, FirstBad;
      for i := 0 to |source.files|
        invariant FirstBad(source.files, dir) == FirstBad(source.files[i..], dir)
        invariant verified == Verified(source.files[..i], dir)
      {
        var f := source.files[i];
        VerifyOne(source.files, i, dir);
        if f.existed {
          if f.target !in dir {
            return Some(PayloadMissing), verified;
          }
          if f.original != Some(dir[f.target]) {
            return Some(PayloadCorrupt), verified;
          }
          verified := verified[f.target := dir[f.target]];
        }
      }
      assert source.files[..|source.files|] == source.files;
      bad := None;
      NothingVerified(source.files, dir);
    }

    /** Writes the payloads that were read, and removes what was absent. */
    method WritePayloads(source: Snapshot, verified: map<Path, string>) returns (stopped: Option<Refusal>)
      modifies this`files
      ensures (files, stopped) == WriteBack(old(files), source.files, verified, 0)
    {
      var committedCount := 0;
      while committedCount < |source.files|
        invariant committedCount <= |source.files|
        invariant WriteBack(old(files), source.files, verified, 0)
                  == WriteBack(files, source.files[committedCount..], verified, committedCount)
      {
        var f := source.files[committedCount];
        if !f.existed {
          files := SetFile(files, f.target, None);
        } else {
          if f.target !in verified {
            return Some(if committedCount > 0 then ReconciliationRequired else PayloadMissing);
          }
          files := SetFile(files, f.target, Some(verified[f.target]));
        }
        committedCount := committedCount + 1;
      }
      stopped := None;
    }

    method Rollback(id: Id, now: nat, source: Snapshot, order: seq<Path>, expected: HashMap) returns (o: Outcome)
      requires Valid() && WfRequest(RollbackRequest(source, order, expected))
      modifies this
      ensures Valid()
      ensures (TheDisk(), o) == RollbackSpec(old(TheDisk()), id, now, retention, source, order, expected)
    {
      hide Keep, Verified, WriteBack, FirstBad, Applicable, TakeSnapshot, Copies, RollbackWrites;
      var r := RollbackRequest(source, order, expected);
      var locked := AcquireFileLocks(order);
      if !locked {
        return Refused(TargetLocked);
      }
      var ok := CheckPreconditions(r);
      if !ok {
        ReleaseFileLocks(order);
        assert locks == old(locks);
        return Refused(PreconditionFailed);
      }
      var bad, verified := VerifySnapshotPayloads(source);
      if bad.Some? {
        ReleaseFileLocks(order);
        assert locks == old(locks);
        return Refused(bad.value);
      }
      var snapshot := WriteSnapshot(r.targets, id, now);
      TakenId(files, r.targets, id, now);
      PruneSnapshots(id);
      var stopped := WritePayloads(source, verified);
      ReleaseFileLocks(order);
      assert locks == old(locks);
      o := if stopped.Some? then Refused(stopped.value) else Applied(snapshot);
    }
  }
}

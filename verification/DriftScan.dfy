/**
  `scanDrift`: one drift record per managed target whose file is not as recorded. Record ids are
  numbered in the order in which the repository lists them; they are hashes of the owner and the
  path, taken to be injective. Every hash is what its own read returned.
 */
module DriftScan {
  import opened Prelude
  import opened RepositoryListing

  datatype Owner = Owner(agent: string, project: string, path: string)

  datatype Target = Target(owner: Owner, expected: Option<string>)

  datatype Drift = Drift(owner: Owner, expected: Option<string>, observed: Option<string>, detectedAt: int)

  type Drifts = map<nat, Drift>

  /** One scan's inputs: the targets, what each read returned, and the clock at each target. */
  datatype Scan = Scan(targets: seq<Target>, observed: seq<Option<string>>, now: seq<int>, number: map<Owner, nat>) {
    /** Managed targets are stored one per path. */
    ghost predicate Valid() {
      && |observed| == |targets| == |now|
      && (forall i :: 0 <= i < |targets| ==> targets[i].owner in number)
      && (forall a, b :: a in number && b in number && number[a] == number[b] ==> a == b)
      && (forall i, j :: 0 <= i < j < |targets| ==> targets[i].owner.path != targets[j].owner.path)
    }

    predicate Drifted(i: nat)
      requires i < |targets| && |observed| == |targets|
    {
      targets[i].expected != observed[i]
    }

    function Id(i: nat): nat
      requires i < |targets| && targets[i].owner in number
    {
      number[targets[i].owner]
    }

    /** The record for one target: it keeps the detection time of the one that was there. */
    function Record(before: Drifts, seen: set<nat>, i: nat): Drift
      requires i < |targets| && |observed| == |targets| == |now| && targets[i].owner in number
    {
      var kept := Id(i) in seen && Id(i) in before;
      Drift(targets[i].owner, targets[i].expected, observed[i], if kept then before[Id(i)].detectedAt else now[i])
    }
  }

  function Lookup(rows: Drifts, id: nat): Option<Drift> {
    if id in rows then Some(rows[id]) else None
  }

  ghost predicate Active(s: Scan, upto: nat, id: nat)
    requires s.Valid() && upto <= |s.targets|
  {
    exists i :: 0 <= i < upto && s.Drifted(i) && s.Id(i) == id
  }

  /** The records after the first `upto` targets. */
  ghost predicate Detected(s: Scan, before: Drifts, seen: set<nat>, upto: nat, rows: Drifts)
    requires s.Valid() && upto <= |s.targets|
  {
    && (forall i :: 0 <= i < upto && s.Drifted(i) ==> Lookup(rows, s.Id(i)) == Some(s.Record(before, seen, i)))
    && (forall id :: !Active(s, upto, id) ==> Lookup(rows, id) == Lookup(before, id))
  }

  /** The records after a whole scan. */
  ghost predicate ScannedTo(s: Scan, before: Drifts, seen: set<nat>, rows: Drifts)
    requires s.Valid()
  {
    && (forall i :: 0 <= i < |s.targets| && s.Drifted(i) ==> Lookup(rows, s.Id(i)) == Some(s.Record(before, seen, i)))
    && (forall id :: !Active(s, |s.targets|, id) ==> Lookup(rows, id) == if id in seen then None else Lookup(before, id))
  }

  /** A list call can see every record that the scan will write. */
  ghost predicate InSightOf(s: Scan, before: Drifts, seen: set<nat>)
    requires s.Valid()
  {
    forall i :: 0 <= i < |s.targets| && s.Drifted(i) && s.Id(i) in before ==> s.Id(i) in seen
  }

  lemma IdsDistinct(s: Scan, i: nat, j: nat)
    requires s.Valid() && i < |s.targets| && j < |s.targets| && s.Id(i) == s.Id(j)
    ensures i == j
  {
  }

  lemma NotActiveYet(s: Scan, i: nat)
    requires s.Valid() && i < |s.targets|
    ensures !Active(s, i, s.Id(i))
    ensures forall id :: Active(s, i + 1, id) <==> Active(s, i, id) || (s.Drifted(i) && s.Id(i) == id)
  {
    forall j | 0 <= j < i ensures s.Id(j) != s.Id(i) {
      if s.Id(j) == s.Id(i) {
        IdsDistinct(s, i, j);
      }
    }
  }

  lemma DetectOne(s: Scan, before: Drifts, seen: set<nat>, i: nat, rows: Drifts)
    requires s.Valid() && i < |s.targets| && Detected(s, before, seen, i, rows)
    ensures Lookup(rows, s.Id(i)) == Lookup(before, s.Id(i))
    ensures Detected(s, before, seen, i + 1, if s.Drifted(i) then rows[s.Id(i) := s.Record(before, seen, i)] else rows)
  {
    hide Active;
    NotActiveYet(s, i);
    forall j | 0 <= j < i ensures s.Id(j) != s.Id(i) {
      if s.Id(j) == s.Id(i) {
        IdsDistinct(s, i, j);
      }
    }
  }

  lemma NothingDetected(s: Scan, before: Drifts, seen: set<nat>)
    requires s.Valid()
    ensures Detected(s, before, seen, 0, before) && forall id :: !Active(s, 0, id)
  {
  }

  lemma OutOfSightAt(s: Scan, before: Drifts, seen: set<nat>, i: nat)
    requires s.Valid() && i < |s.targets| && s.Drifted(i) && s.Id(i) in before && s.Id(i) !in seen
    ensures !InSightOf(s, before, seen)
  {
  }

  lemma AllInSightOf(s: Scan, before: Drifts, seen: set<nat>)
    requires s.Valid() && forall k :: 0 <= k < |s.targets| && s.Drifted(k) && s.Id(k) in before ==> s.Id(k) in seen
    ensures InSightOf(s, before, seen)
  {
  }

  class Repository {
    var rows: Drifts
    var index: set<nat>

    ghost predicate Valid()
      reads this
    {
      index == rows.Keys
    }

    constructor ()
      ensures Valid() && rows == map[]
    {
      rows, index := map[], {};
    }

    method Put(mode: Mode, id: nat, d: Drift) returns (ok: bool)
      requires Valid()
      modifies this
      ensures Valid() && ok == (mode.Create? == (id !in old(rows)))
      ensures rows == if ok then old(rows)[id := d] else old(rows)
    {
      ok := mode.Create? == (id !in rows);
      if ok {
        rows, index := rows[id := d], index + {id};
      }
    }

    method Delete(id: nat)
      requires Valid() && id in rows
      modifies this
      ensures Valid() && rows == old(rows) - {id}
    {
      rows, index := rows - {id}, index - {id};
    }

    /** The first loop; `ok` is false when an upsert was refused, which ends the scan. */
    method Detect(s: Scan, existing: Drifts) returns (ok: bool, activeIds: set<nat>)
      requires Valid() && s.Valid()
      requires existing.Keys == Visible(index) && forall id :: id in existing ==> id in rows && existing[id] == rows[id]
      modifies this
      ensures Valid() && (ok <==> InSightOf(s, old(rows), Visible(old(index))))
      ensures ok ==> Detected(s, old(rows), Visible(old(index)), |s.targets|, rows)
      ensures ok ==> forall id :: id in activeIds <==> Active(s, |s.targets|, id)
    {
      ghost var before, seen := rows, Visible(index);
      NothingDetected(s, before, seen);
      hide Detected, Active, Visible, InSightOf;
      ok, activeIds := true, {};
      for i := 0 to |s.targets|
        invariant Valid() && ok && Detected(s, before, seen, i, rows)
        invariant forall id :: id in activeIds <==> Active(s, i, id)
        invariant forall k :: 0 <= k < i && s.Drifted(k) && s.Id(k) in before ==> s.Id(k) in seen
      {
        DetectOne(s, before, seen, i, rows);
        NotActiveYet(s, i);
        if s.targets[i].expected == s.observed[i] {
          continue;
        }
        var id := s.number[s.targets[i].owner];
        activeIds := activeIds + {id};
        var detectedAt := if id in existing then existing[id].detectedAt else s.now[i];
        var drift := Drift(s.targets[i].owner, s.targets[i].expected, s.observed[i], detectedAt);
        assert drift == s.Record(before, seen, i);
        ok := Put(if id in existing then Update else Create, id, drift);
        if !ok {
          OutOfSightAt(s, before, seen, i);
          return;
        }
      }
      AllInSightOf(s, before, seen);
    }

    /** The second loop: records whose target is as recorded again, or no longer managed. */
    method Resolve(ids: seq<nat>, activeIds: set<nat>)
      requires Valid() && Distinct(ids) && Elements(ids) <= rows.Keys
      modifies this
      ensures Valid() && forall id :: Lookup(rows, id) == if id in Elements(ids) - activeIds then None else Lookup(old(rows), id)
    {
      for j := 0 to |ids|
        invariant Valid()
        invariant forall id :: Lookup(rows, id) == if id in ids[..j] && id !in activeIds then None else Lookup(old(rows), id)
      {
        assert ids[..j + 1] == ids[..j] + [ids[j]];
        if ids[j] in activeIds {
          continue;
        }
        assert ids[j] in Elements(ids) && ids[j] !in ids[..j];
        assert Lookup(rows, ids[j]) == Lookup(old(rows), ids[j]);
        Delete(ids[j]);
      }
      assert ids[..|ids|] == ids;
      assert forall id :: id in Elements(ids) <==> id in ids;
    }

    method ScanDrift(s: Scan) returns (ok: bool)
      requires Valid() && s.Valid()
      modifies this
      ensures Valid() && (ok <==> InSightOf(s, old(rows), Visible(old(index))))
      ensures ok ==> ScannedTo(s, old(rows), Visible(old(index)), rows)
    {
      var ids := ListIds(index);
      assert Visible(index) <= index;
      assert forall id :: id in ids <==> id in Elements(ids);
      hide Detected, Active, Visible, InSightOf, ScannedTo, Elements, Distinct;
      var existing := map id | id in ids :: rows[id];
      assert existing.Keys == Visible(index);
      ghost var before, seen := rows, Visible(index);
      var activeIds;
      ok, activeIds := Detect(s, existing);
      if ok {
        KnownStay(s, before, seen, rows);
        ghost var middle := rows;
        Resolve(ids, activeIds);
        ScanDone(s, before, seen, middle, activeIds, rows);
      }
    }
  }

  lemma KnownStay(s: Scan, before: Drifts, seen: set<nat>, rows: Drifts)
    requires s.Valid() && Detected(s, before, seen, |s.targets|, rows) && seen <= before.Keys
    ensures seen <= rows.Keys
  {
    forall id | id in seen ensures id in rows {
      if !Active(s, |s.targets|, id) {
        assert Lookup(rows, id) == Lookup(before, id);
      }
    }
  }

  lemma ScanDone(s: Scan, before: Drifts, seen: set<nat>, middle: Drifts, activeIds: set<nat>, rows: Drifts)
    requires s.Valid() && Detected(s, before, seen, |s.targets|, middle)
    requires forall id :: id in activeIds <==> Active(s, |s.targets|, id)
    requires forall id :: Lookup(rows, id) == if id in seen - activeIds then None else Lookup(middle, id)
    ensures ScannedTo(s, before, seen, rows)
  {
    forall i | 0 <= i < |s.targets| && s.Drifted(i) ensures Lookup(rows, s.Id(i)) == Some(s.Record(before, seen, i)) {
      assert Active(s, |s.targets|, s.Id(i));
    }
  }

  // ---------------------------------------------------------------- what a scan leaves behind

  /** The ids of the drifting targets. */
  function Drifting(s: Scan): set<nat>
    requires s.Valid()
  {
    set i | 0 <= i < |s.targets| && s.Drifted(i) :: s.Id(i)
  }

  /** A completed scan: every record it had to write was in sight. */
  ghost predicate Completed(s: Scan, before: Drifts, rows: Drifts)
    requires s.Valid()
  {
    InSightOf(s, before, Visible(before.Keys)) && ScannedTo(s, before, Visible(before.Keys), rows)
  }

  lemma DriftingIsActive(s: Scan, id: nat)
    requires s.Valid()
    ensures id in Drifting(s) <==> Active(s, |s.targets|, id)
  {
  }

  /** A completed scan leaves a record for every drifting target, and those that no listing showed. */
  lemma RecordsAfter(s: Scan, before: Drifts, rows: Drifts)
    requires s.Valid() && Completed(s, before, rows)
    ensures rows.Keys == Drifting(s) + (before.Keys - Visible(before.Keys))
    ensures Drifting(s) !! before.Keys - Visible(before.Keys)
  {
    hide Visible, Drifting;
    forall id
      ensures id in rows <==> id in Drifting(s) || (id in before && id !in Visible(before.Keys))
      ensures id in Drifting(s) && id in before ==> id in Visible(before.Keys)
    {
      DriftingIsActive(s, id);
      if Active(s, |s.targets|, id) {
        var i :| 0 <= i < |s.targets| && s.Drifted(i) && s.Id(i) == id;
        assert Lookup(rows, s.Id(i)) == Some(s.Record(before, Visible(before.Keys), i));
      } else {
        assert Lookup(rows, id) == if id in Visible(before.Keys) then None else Lookup(before, id);
      }
    }
  }

  /**
    After a completed scan there is a record exactly for every managed target whose observed hash
    differs from the recorded one, if and only if the earlier records fitted one listing: beyond
    it stale records stay. Either way each drifting target's record says what the scan saw.
   */
  lemma ExactlyTheDrifting(s: Scan, before: Drifts, rows: Drifts)
    requires s.Valid() && Completed(s, before, rows)
    ensures rows.Keys == Drifting(s) <==> |before| <= LIST_LIMIT
    ensures forall id :: id in Drifting(s) <==>
              exists i :: 0 <= i < |s.targets| && s.targets[i].expected != s.observed[i] && s.number[s.targets[i].owner] == id
    ensures forall i :: 0 <= i < |s.targets| && s.targets[i].expected != s.observed[i] ==>
              var id := s.number[s.targets[i].owner];
              Lookup(rows, id) == Some(Drift(s.targets[i].owner, s.targets[i].expected, s.observed[i],
                                             if id in before then before[id].detectedAt else s.now[i]))
  {
    RecordsAfter(s, before, rows);
    if |before| <= LIST_LIMIT {
      SmallIsVisible(before.Keys);
    } else {
      LargeHides(before.Keys);
    }
    DriftingMeans(s);
    hide Visible, Drifting, InSightOf, Active;
    forall i | 0 <= i < |s.targets| && s.targets[i].expected != s.observed[i]
      ensures var id := s.number[s.targets[i].owner];
              Lookup(rows, id) == Some(Drift(s.targets[i].owner, s.targets[i].expected, s.observed[i],
                                             if id in before then before[id].detectedAt else s.now[i]))
    {
      RecordMeans(s, before, rows, i);
    }
  }

  lemma DriftingMeans(s: Scan)
    requires s.Valid()
    ensures forall id :: id in Drifting(s) <==>
              exists i :: 0 <= i < |s.targets| && s.targets[i].expected != s.observed[i] && s.number[s.targets[i].owner] == id
  {
    forall id
      ensures id in Drifting(s) <==>
              exists i :: 0 <= i < |s.targets| && s.targets[i].expected != s.observed[i] && s.number[s.targets[i].owner] == id
    {
      if i :| 0 <= i < |s.targets| && s.targets[i].expected != s.observed[i] && s.number[s.targets[i].owner] == id {
        assert s.Drifted(i) && s.Id(i) == id;
      }
      if i :| 0 <= i < |s.targets| && s.Drifted(i) && s.Id(i) == id {
        assert s.targets[i].expected != s.observed[i] && s.number[s.targets[i].owner] == id;
      }
    }
  }

  lemma RecordMeans(s: Scan, before: Drifts, rows: Drifts, i: nat)
    requires s.Valid() && Completed(s, before, rows) && i < |s.targets| && s.targets[i].expected != s.observed[i]
    ensures var id := s.number[s.targets[i].owner];
            Lookup(rows, id) == Some(Drift(s.targets[i].owner, s.targets[i].expected, s.observed[i],
                                           if id in before then before[id].detectedAt else s.now[i]))
  {
    hide Visible, Active;
    assert s.Drifted(i);
    assert s.Id(i) in before ==> s.Id(i) in Visible(before.Keys);
  }

  /** A record that persists keeps the time at which its drift was first detected. */
  lemma FirstDetectionKept(s: Scan, before: Drifts, rows: Drifts, id: nat)
    requires s.Valid() && Completed(s, before, rows) && id in before && id in rows
    ensures rows[id].detectedAt == before[id].detectedAt
  {
    hide Visible;
    if Active(s, |s.targets|, id) {
      var i :| 0 <= i < |s.targets| && s.Drifted(i) && s.Id(i) == id;
      assert Lookup(rows, id) == Some(s.Record(before, Visible(before.Keys), i));
    } else {
      assert Lookup(rows, id) == if id in Visible(before.Keys) then None else Lookup(before, id);
    }
  }

  /**
    Of two completed scans of the same state, at any times, the second changes no record, if and only
    if its listing shows none but those of drifting targets.
   */
  lemma RescanChangesNothing(s: Scan, later: Scan, before: Drifts, rows: Drifts, again: Drifts)
    requires s.Valid() && later.Valid() && later == s.(now := later.now)
    requires Completed(s, before, rows) && Completed(later, rows, again)
    ensures again == rows <==> Visible(rows.Keys) <= Drifting(s)
  {
    SameDrifting(s, later);
    RecordsAfter(s, before, rows);
    RecordsAfter(later, rows, again);
    hide Visible, Drifting;
    if Visible(rows.Keys) <= Drifting(s) {
      forall id ensures Lookup(again, id) == Lookup(rows, id) {
        SameRecord(s, later, before, rows, again, id);
      }
      SameDrifts(again, rows);
    } else {
      var id :| id in Visible(rows.Keys) && id !in Drifting(s);
      VisibleIsThere(rows.Keys, id);
      assert id in rows && id !in again;
    }
  }

  lemma SameDrifting(s: Scan, later: Scan)
    requires s.Valid() && later.Valid() && later == s.(now := later.now)
    ensures Drifting(later) == Drifting(s)
  {
    assert forall i :: 0 <= i < |s.targets| ==> later.Drifted(i) == s.Drifted(i) && later.Id(i) == s.Id(i);
  }

  lemma VisibleIsThere(index: set<nat>, id: nat)
    requires id in Visible(index)
    ensures id in index
  {
  }

  lemma SameRecord(s: Scan, later: Scan, before: Drifts, rows: Drifts, again: Drifts, id: nat)
    requires s.Valid() && later.Valid() && later == s.(now := later.now)
    requires Completed(s, before, rows) && Completed(later, rows, again)
    requires again.Keys == rows.Keys
    ensures Lookup(again, id) == Lookup(rows, id)
  {
    hide Visible;
    if Active(later, |s.targets|, id) {
      var i :| 0 <= i < |s.targets| && later.Drifted(i) && later.Id(i) == id;
      assert s.Drifted(i) && s.Id(i) == id;
      assert Lookup(rows, id) == Some(s.Record(before, Visible(before.Keys), i));
      assert Lookup(again, id) == Some(later.Record(rows, Visible(rows.Keys), i));
    } else {
      assert Lookup(again, id) == if id in Visible(rows.Keys) then None else Lookup(rows, id);
    }
  }

  lemma SameDrifts(a: Drifts, b: Drifts)
    requires forall id :: Lookup(a, id) == Lookup(b, id)
    ensures a == b
  {
    forall id ensures id in a <==> id in b {
      assert Lookup(a, id) == Lookup(b, id);
    }
    forall id | id in a ensures a[id] == b[id] {
      assert Lookup(a, id) == Lookup(b, id);
    }
  }

  /**
    The next scan of the same state completes exactly when fewer records than the limit sort before
    that of each drifting target; after a table that fitted, exactly when the records fit again. It
    completes with nothing to resolve exactly when its listing shows the drifting targets and no more.
   */
  lemma NextScanExactlyWhen(s: Scan, before: Drifts, rows: Drifts)
    requires s.Valid() && Completed(s, before, rows)
    ensures InSightOf(s, rows, Visible(rows.Keys)) <==>
              forall id :: id in Drifting(s) ==> |Below(rows.Keys, id)| < LIST_LIMIT
    ensures |before| <= LIST_LIMIT ==> (InSightOf(s, rows, Visible(rows.Keys)) <==> |rows| <= LIST_LIMIT)
    ensures InSightOf(s, rows, Visible(rows.Keys)) && Visible(rows.Keys) <= Drifting(s) <==> Visible(rows.Keys) == Drifting(s)
  {
    hide Drifting, ScannedTo;
    RecordsAfter(s, before, rows);
    SightOfDrifting(s, rows);
    VisibleMeans(rows.Keys, Drifting(s));
    hide InSightOf, Visible;
    if |before| <= LIST_LIMIT {
      SmallIsVisible(before.Keys);
      if |rows| <= LIST_LIMIT {
        SmallIsVisible(rows.Keys);
      } else {
        LargeHides(rows.Keys);
      }
    }
  }

  lemma VisibleMeans(index: set<nat>, ids: set<nat>)
    requires ids <= index
    ensures ids <= Visible(index) <==> forall id :: id in ids ==> |Below(index, id)| < LIST_LIMIT
  {
  }

  lemma SightOfDrifting(s: Scan, rows: Drifts)
    requires s.Valid() && Drifting(s) <= rows.Keys
    ensures InSightOf(s, rows, Visible(rows.Keys)) <==> Drifting(s) <= Visible(rows.Keys)
  {
    hide Visible;
  }

  /**
    Once a completed scan changes nothing, the records are exactly those of the drifting targets;
    or else as many targets drift as one listing shows, and it never shows a stale record again.
   */
  lemma RestMeans(s: Scan, later: Scan, before: Drifts, rows: Drifts)
    requires s.Valid() && later.Valid() && later == s.(now := later.now)
    requires Completed(s, before, rows) && Completed(later, rows, rows)
    ensures rows.Keys == Drifting(s) || (|Drifting(s)| == LIST_LIMIT && Visible(rows.Keys) == Drifting(s))
  {
    hide Visible, Drifting, ScannedTo;
    RescanChangesNothing(s, later, before, rows, rows);
    SameDrifting(s, later);
    assert Drifting(s) <= Visible(rows.Keys) by {
      RecordsAfter(s, before, rows);
      SightOfDrifting(later, rows);
    }
    hide InSightOf;
    RestSets(rows.Keys, Drifting(s));
  }

  lemma RestSets(index: set<nat>, drifting: set<nat>)
    requires Visible(index) == drifting
    ensures index == drifting || |drifting| == LIST_LIMIT
  {
    if |index| <= LIST_LIMIT {
      SmallIsVisible(index);
    } else {
      VisibleCount(index);
    }
  }
}

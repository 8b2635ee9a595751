/**
  `reconcileCanonicalState`: bring the Redis projection back to the canonical files. Ids are
  numbered in the order in which the repository sorts them; a row's body stands for its JSON.
 */
module CanonicalReconcile {
  import opened Prelude
  import opened RepositoryListing

  datatype Row = Row(id: nat, project: string, body: string)

  type Rows = map<nat, Row>

  function Get(rows: Rows, id: nat): Option<Row> {
    if id in rows then Some(rows[id]) else None
  }

  /** Every hash is stored under the id it holds. */
  ghost predicate Keyed(rows: Rows) {
    forall id :: id in rows ==> rows[id].id == id
  }

  /** Canonical manifests come with distinct ids; duplicates were refused when they were loaded. */
  predicate Unique(c: seq<Row>) {
    forall i, j :: 0 <= i < j < |c| ==> c[i].id != c[j].id
  }

  function Ids(c: seq<Row>): set<nat> {
    set r | r in c :: r.id
  }

  /** The canonical rows that are missing from the projection or differ there. */
  function Differing(rows: Rows, c: seq<Row>): set<nat> {
    set r | r in c && Get(rows, r.id) != Some(r) :: r.id
  }

  ghost predicate Overlaid(before: Rows, c: seq<Row>, after: Rows) {
    && (forall r :: r in c ==> Get(after, r.id) == Some(r))
    && (forall id :: id !in Ids(c) ==> Get(after, id) == Get(before, id))
  }

  // ---------------------------------------------------------------- one canonical row at a time

  lemma OneMore(before: Rows, c: seq<Row>, i: nat)
    requires Unique(c) && i < |c|
    ensures c[i].id !in Ids(c[..i])
    ensures Ids(c[..i + 1]) == Ids(c[..i]) + {c[i].id}
    ensures Differing(before, c[..i + 1])
            == Differing(before, c[..i]) + (if Get(before, c[i].id) != Some(c[i]) then {c[i].id} else {})
    ensures Differing(before, c[..i]) <= Ids(c[..i])
  {
    assert c[..i + 1] == c[..i] + [c[i]];
    assert c[i] in c[..i + 1];
  }

  lemma OverlayOne(before: Rows, c: seq<Row>, i: nat, rows: Rows, rows': Rows)
    requires Unique(c) && i < |c| && Overlaid(before, c[..i], rows)
    requires Get(rows', c[i].id) == Some(c[i]) && forall id :: id != c[i].id ==> Get(rows', id) == Get(rows, id)
    ensures Overlaid(before, c[..i + 1], rows')
  {
    OneMore(before, c, i);
    assert c[..i + 1] == c[..i] + [c[i]];
    forall r | r in c[..i + 1] ensures Get(rows', r.id) == Some(r) {
      if r in c[..i] {
        assert r.id in Ids(c[..i]);
      }
    }
  }

  lemma NotYet(before: Rows, c: seq<Row>, i: nat, rows: Rows)
    requires Unique(c) && i < |c| && Overlaid(before, c[..i], rows)
    ensures Get(rows, c[i].id) == Get(before, c[i].id)
  {
    OneMore(before, c, i);
  }

  lemma Nothing(before: Rows, c: seq<Row>)
    ensures Overlaid(before, c[..0], before) && Differing(before, c[..0]) == {}
  {
  }

  /** Agents, capabilities and profiles: read by id, never removed. */
  class Table {
    var rows: Rows

    constructor ()
      ensures rows == map[]
    {
      rows := map[];
    }

    /** The atomic upsert: creating what exists or updating what does not is refused. */
    method Put(mode: Mode, r: Row) returns (ok: bool)
      modifies this
      ensures ok <==> (mode.Create? <==> r.id !in old(rows))
      ensures rows == if ok then old(rows)[r.id := r] else old(rows)
    {
      ok := mode.Create? == (r.id !in rows);
      if ok {
        rows := rows[r.id := r];
      }
    }

    method Rebuild(c: seq<Row>) returns (ok: bool, rebuilt: nat)
      requires Unique(c)
      modifies this
      ensures ok && Overlaid(old(rows), c, rows) && rebuilt == |Differing(old(rows), c)|
    {
      hide Overlaid, Differing, Ids, Unique;
      ok, rebuilt := true, 0;
      ghost var before := rows;
      Nothing(rows, c);
      for i := 0 to |c|
        invariant ok && Overlaid(before, c[..i], rows) && rebuilt == |Differing(before, c[..i])|
      {
        var current := Get(rows, c[i].id);
        NotYet(before, c, i, rows);
        OneMore(before, c, i);
        ghost var was := rows;
        if current != Some(c[i]) {
          ok := Put(if current.None? then Create else Update, c[i]);
          rebuilt := rebuilt + 1;
        }
        OverlayOne(before, c, i, was, rows);
      }
      assert c[..|c|] == c;
    }
  }

  // ---------------------------------------------------------------- listing rows

  /** Listing an index: ids without a row are skipped. */
  method ListRows(rows: Rows, index: set<nat>) returns (listed: seq<Row>)
    requires Keyed(rows)
    ensures Unique(listed) && Ids(listed) == Visible(index) * rows.Keys
    ensures forall r :: r in listed ==> Get(rows, r.id) == Some(r)
  {
    var ids := ListIds(index);
    listed := [];
    assert Elements(ids[..0]) == {};
    for i := 0 to |ids|
      invariant Unique(listed) && Ids(listed) == Elements(ids[..i]) * rows.Keys
      invariant forall r :: r in listed ==> Get(rows, r.id) == Some(r)
    {
      assert ids[..i + 1] == ids[..i] + [ids[i]];
      ElementsSnoc(ids[..i], ids[i]);
      if ids[i] in rows {
        assert ids[i] !in Elements(ids[..i]);
        Listed(listed, rows[ids[i]]);
        listed := listed + [rows[ids[i]]];
      }
    }
    assert ids[..|ids|] == ids;
  }

  lemma Listed(listed: seq<Row>, r: Row)
    requires Unique(listed) && r.id !in Ids(listed)
    ensures Unique(listed + [r]) && Ids(listed + [r]) == Ids(listed) + {r.id}
  {
    var all := listed + [r];
    assert r in all;
    forall i | 0 <= i < |listed| ensures all[i].id != r.id {
      assert all[i] in listed;
    }
    forall x | x in listed ensures x.id in Ids(all) {
      assert x in all;
    }
  }

  // ---------------------------------------------------------------- capability bindings

  /** Rows of `gone` removed, all others kept. */
  ghost predicate Without(before: Rows, gone: set<nat>, after: Rows) {
    forall id :: Get(after, id) == if id in gone then None else Get(before, id)
  }

  /** Every canonical row that exists can be seen by the list call. */
  ghost predicate AllSeen(rows: Rows, index: set<nat>, c: seq<Row>) {
    forall r :: r in c && r.id in rows ==> r.id in Visible(index)
  }

  lemma GoneGrows(listed: seq<Row>, j: nat, keep: set<nat>)
    requires Unique(listed) && j < |listed|
    ensures listed[j].id !in Ids(listed[..j])
    ensures Ids(listed[..j + 1]) - keep == Ids(listed[..j]) - keep + (if listed[j].id in keep then {} else {listed[j].id})
  {
    OneMore(map[], listed, j);
    hide Ids, Unique;
  }

  lemma NoneGone(listed: seq<Row>, keep: set<nat>, rows: Rows)
    ensures Ids(listed[..0]) - keep == {} && Without(rows, {}, rows) && rows - {} == rows
  {
  }

  lemma OneGone(gone: set<nat>, id: nat, before: Rows, rows: Rows)
    requires Without(before, gone, rows) && id !in gone
    ensures Get(rows, id) == Get(before, id)
    ensures Without(before, gone + {id}, rows - {id})
  {
  }

  lemma OutOfSight(rows: Rows, index: set<nat>, c: seq<Row>, i: nat)
    requires i < |c| && c[i].id in rows && c[i].id !in Visible(index)
    ensures !AllSeen(rows, index, c)
  {
    assert c[i] in c;
  }

  lemma AllInSight(rows: Rows, index: set<nat>, c: seq<Row>)
    requires forall k :: 0 <= k < |c| && c[k].id in rows ==> c[k].id in Visible(index)
    ensures AllSeen(rows, index, c)
  {
  }

  lemma VisibleIsListed(index: set<nat>)
    ensures Visible(index) <= index
  {
  }

  class IndexedTable {
    var rows: Rows
    var index: set<nat>

    ghost predicate Valid()
      reads this
    {
      Keyed(rows) && index == rows.Keys
    }

    constructor ()
      ensures Valid() && rows == map[]
    {
      rows, index := map[], {};
    }

    method Put(mode: Mode, r: Row) returns (ok: bool)
      requires Valid()
      modifies this
      ensures Valid() && ok == (mode.Create? == (r.id !in old(rows)))
      ensures rows == if ok then old(rows)[r.id := r] else old(rows)
    {
      ok := mode.Create? == (r.id !in rows);
      if ok {
        rows, index := rows[r.id := r], index + {r.id};
      }
    }

    method Delete(r: Row)
      requires Valid() && r.id in rows
      modifies this
      ensures Valid() && rows == old(rows) - {r.id}
    {
      rows, index := rows - {r.id}, index - {r.id};
    }

    /** The first loop; a refused upsert ends it with an exception. */
    method Upsert(listed: seq<Row>, c: seq<Row>) returns (ok: bool, rebuilt: nat)
      requires Valid() && Unique(c) && Unique(listed) && Ids(listed) == Visible(index)
      requires forall r :: r in listed ==> Get(rows, r.id) == Some(r)
      modifies this
      ensures Valid() && (ok <==> AllSeen(old(rows), old(index), c))
      ensures ok ==> Overlaid(old(rows), c, rows) && rebuilt == |Differing(old(rows), c)|
    {
      hide Overlaid, Differing, Ids, Unique, Keyed, Visible, AllSeen;
      ghost var before, seen := rows, Visible(index);
      ok, rebuilt := true, 0;
      Nothing(rows, c);
      for i := 0 to |c|
        invariant Valid() && ok && Overlaid(before, c[..i], rows) && rebuilt == |Differing(before, c[..i])|
        invariant forall k :: 0 <= k < i && c[k].id in before ==> c[k].id in seen
      {
        var current := Find(listed, c[i].id);
        Found(before, seen, listed, c[i].id, current);
        NotYet(before, c, i, rows);
        OneMore(before, c, i);
        ghost var was := rows;
        if current != Some(c[i]) {
          ok := Put(if current.None? then Create else Update, c[i]);
          if !ok {
            OutOfSight(before, old(index), c, i);
            return;
          }
          rebuilt := rebuilt + 1;
        }
        OverlayOne(before, c, i, was, rows);
      }
      assert c[..|c|] == c;
      AllInSight(before, old(index), c);
    }

    /** The second loop: delete what was listed and is not canonical. */
    method RemoveStale(listed: seq<Row>, keep: set<nat>) returns (removed: nat)
      requires Valid() && Unique(listed)
      requires forall r :: r in listed ==> r.id in rows
      modifies this
      ensures Valid() && Without(old(rows), Ids(listed) - keep, rows) && removed == |Ids(listed) - keep|
    {
      hide Without, Unique, Keyed, Ids;
      ghost var before := rows;
      removed := 0;
      NoneGone(listed, keep, before);
      for j := 0 to |listed|
        invariant Valid() && Without(before, Ids(listed[..j]) - keep, rows) && removed == |Ids(listed[..j]) - keep|
      {
        var r := listed[j];
        assert r in listed && r.id in before;
        GoneGrows(listed, j, keep);
        if r.id !in keep {
          OneGone(Ids(listed[..j]) - keep, r.id, before, rows);
          Delete(r);
          removed := removed + 1;
        }
      }
      assert listed[..|listed|] == listed;
    }

    method Reconcile(c: seq<Row>) returns (ok: bool, rebuilt: nat, removed: nat)
      requires Valid() && Unique(c)
      modifies this
      ensures Valid() && (ok <==> AllSeen(old(rows), old(index), c))
      ensures ok ==> Settled(old(rows), Visible(old(index)), c, rows)
      ensures ok ==> rebuilt == |Differing(old(rows), c)| && removed == |Visible(old(index)) - Ids(c)|
    {
      hide Overlaid, Differing, Unique, Visible, AllSeen, Without, Settled, Ids;
      var listed := ListRows(rows, index);
      VisibleIsListed(index);
      assert Visible(index) * rows.Keys == Visible(index);
      ghost var before := rows;
      removed := 0;
      ok, rebuilt := Upsert(listed, c);
      if ok {
        ghost var middle := rows;
        StillThere(before, listed, c, rows);
        removed := RemoveStale(listed, Ids(c));
        SettledNow(before, c, middle, Ids(listed), rows);
      }
    }
  }

  /** Canonical rows are in place, and of the others the ones in sight are gone. */
  ghost predicate Settled(before: Rows, seen: set<nat>, c: seq<Row>, after: Rows) {
    && (forall r :: r in c ==> Get(after, r.id) == Some(r))
    && (forall id :: id !in Ids(c) ==> Get(after, id) == if id in seen then None else Get(before, id))
  }

  lemma SettledNow(before: Rows, c: seq<Row>, middle: Rows, seen: set<nat>, after: Rows)
    requires Overlaid(before, c, middle) && Without(middle, seen - Ids(c), after)
    ensures Settled(before, seen, c, after)
  {
    forall r | r in c ensures Get(after, r.id) == Some(r) {
      assert r.id in Ids(c);
    }
  }

  lemma StillThere(before: Rows, listed: seq<Row>, c: seq<Row>, rows: Rows)
    requires Overlaid(before, c, rows) && forall r :: r in listed ==> Get(before, r.id) == Some(r)
    ensures forall r :: r in listed ==> r.id in rows
  {
    forall r | r in listed ensures r.id in rows {
      if r.id in Ids(c) {
        var x :| x in c && x.id == r.id;
        assert Get(rows, x.id) == Some(x);
      } else {
        assert Get(rows, r.id) == Get(before, r.id);
      }
    }
  }

  /** `new Map(projected.map(...)).get(id)` */
  function Find(listed: seq<Row>, id: nat): Option<Row> {
    if listed == [] then None
    else
      var n := |listed| - 1;
      if listed[n].id == id then Some(listed[n]) else Find(listed[..n], id)
  }

  lemma {:induction false} FindFinds(listed: seq<Row>, id: nat)
    ensures Find(listed, id).None? <==> id !in Ids(listed)
    ensures Find(listed, id).Some? ==> Find(listed, id).value in listed && Find(listed, id).value.id == id
  {
    if listed != [] {
      var n := |listed| - 1;
      assert listed == listed[..n] + [listed[n]];
      FindFinds(listed[..n], id);
    }
  }

  lemma Found(before: Rows, seen: set<nat>, listed: seq<Row>, id: nat, current: Option<Row>)
    requires Ids(listed) == seen && current == Find(listed, id)
    requires forall r :: r in listed ==> Get(before, r.id) == Some(r)
    ensures current == if id in seen then Get(before, id) else None
    ensures id in seen ==> current.Some?
  {
    FindFinds(listed, id);
  }

  // ---------------------------------------------------------------- project bindings

  type Indexes = map<string, set<nat>>

  function IndexOf(ix: Indexes, p: string): set<nat> {
    if p in ix then ix[p] else {}
  }

  function OfProject(c: seq<Row>, p: string): set<nat> {
    set r | r in c && r.project == p :: r.id
  }

  /** The ids that the upserts add to the index of `p`. */
  function AddedTo(rows: Rows, c: seq<Row>, p: string): set<nat> {
    set r | r in c && r.project == p && Get(rows, r.id) != Some(r) :: r.id
  }

  function Touched(rows: Rows, c: seq<Row>): set<string> {
    set r | r in c && Get(rows, r.id) != Some(r) :: r.project
  }

  /** The indexes once the canonical rows are in place: no entry is taken out. */
  function Joined(rows: Rows, ix: Indexes, c: seq<Row>): Indexes {
    map p | p in ix.Keys + Touched(rows, c) :: IndexOf(ix, p) + AddedTo(rows, c, p)
  }

  function Overlay(rows: Rows, c: seq<Row>): Rows {
    if c == [] then rows
    else
      var n := |c| - 1;
      Overlay(rows, c[..n])[c[n].id := c[n]]
  }

  function GoneFrom(rows: Rows, gone: set<nat>, p: string): set<nat> {
    set id | id in gone && id in rows && rows[id].project == p
  }

  /** The indexes once the rows in `gone` are deleted: each leaves the index of its own project. */
  function Unlisted(rows: Rows, ix: Indexes, gone: set<nat>): Indexes {
    map p | p in ix :: ix[p] - GoneFrom(rows, gone, p)
  }

  /** What the listing of `p` shows: the entries in sight that have a row. */
  function Shown(rows: Rows, ix: Indexes, p: string): set<nat> {
    Visible(IndexOf(ix, p)) * rows.Keys
  }

  /** What the listings of `projects`, one after the other, show and is not kept. */
  function Swept(rows: Rows, ix: Indexes, projects: seq<string>, keep: set<nat>): set<nat> {
    if projects == [] then {}
    else
      var gone := Shown(rows, ix, projects[0]) - keep;
      gone + Swept(rows - gone, Unlisted(rows, ix, gone), projects[1..], keep)
  }

  ghost predicate Indexed(rows: Rows, ix: Indexes) {
    Keyed(rows) && forall id :: id in rows ==> id in IndexOf(ix, rows[id].project)
  }

  lemma {:induction false} OverlayIsOverlaid(rows: Rows, c: seq<Row>)
    requires Unique(c)
    ensures Overlaid(rows, c, Overlay(rows, c))
  {
    if c != [] {
      var n := |c| - 1;
      hide Overlaid, Ids;
      OverlayIsOverlaid(rows, c[..n]);
      OverlayOne(rows, c, n, Overlay(rows, c[..n]), Overlay(rows, c));
      assert c[..n + 1] == c;
    } else {
      assert Overlaid(rows, [], rows);
    }
  }

  lemma OneOverlay(before: Rows, c: seq<Row>, rows: Rows)
    requires Unique(c) && Overlaid(before, c, rows)
    ensures rows == Overlay(before, c)
  {
    OverlayIsOverlaid(before, c);
    forall id ensures Get(rows, id) == Get(Overlay(before, c), id) {
      if id in Ids(c) {
        var r :| r in c && r.id == id;
        assert Get(rows, r.id) == Some(r) && Get(Overlay(before, c), r.id) == Some(r);
      }
    }
    SameRows(rows, Overlay(before, c));
  }

  lemma SameRows(a: Rows, b: Rows)
    requires forall id :: Get(a, id) == Get(b, id)
    ensures a == b
  {
    forall id ensures id in a <==> id in b {
      assert Get(a, id) == Get(b, id);
    }
    forall id | id in a ensures a[id] == b[id] {
      assert Get(a, id) == Get(b, id);
    }
  }

  lemma SameIndexes(a: Indexes, b: Indexes)
    requires a.Keys == b.Keys && forall p :: p in a ==> a[p] == b[p]
    ensures a == b
  {
  }

  /** The upsert of one more canonical row. */
  function JoinRow(before: Rows, now: Indexes, r: Row): Indexes {
    if Get(before, r.id) == Some(r) then now else now[r.project := IndexOf(now, r.project) + {r.id}]
  }

  lemma AddedOne(before: Rows, c: seq<Row>, i: nat, p: string)
    requires i < |c|
    ensures AddedTo(before, c[..i + 1], p)
            == AddedTo(before, c[..i], p)
               + (if Get(before, c[i].id) != Some(c[i]) && c[i].project == p then {c[i].id} else {})
    ensures Touched(before, c[..i + 1])
            == Touched(before, c[..i]) + (if Get(before, c[i].id) != Some(c[i]) then {c[i].project} else {})
  {
    assert c[..i + 1] == c[..i] + [c[i]];
    assert c[i] in c[..i + 1];
  }

  lemma JoinOne(before: Rows, c: seq<Row>, i: nat, ix: Indexes)
    requires i < |c|
    ensures Joined(before, ix, c[..i + 1]) == JoinRow(before, Joined(before, ix, c[..i]), c[i])
  {
    hide Joined, AddedTo, Touched, Get;
    var now, next := Joined(before, ix, c[..i]), Joined(before, ix, c[..i + 1]);
    JoinedKeys(before, ix, c[..i]);
    JoinedKeys(before, ix, c[..i + 1]);
    AddedOne(before, c, i, "");
    forall p | p in next ensures next[p] == IndexOf(JoinRow(before, now, c[i]), p) {
      JoinOneIndex(before, c, i, ix, p);
    }
    JoinRowKeys(before, now, c[i]);
    SameIndexes(next, JoinRow(before, now, c[i]));
  }

  lemma JoinRowKeys(before: Rows, now: Indexes, r: Row)
    ensures JoinRow(before, now, r).Keys == now.Keys + (if Get(before, r.id) != Some(r) then {r.project} else {})
  {
  }

  lemma JoinOneIndex(before: Rows, c: seq<Row>, i: nat, ix: Indexes, p: string)
    requires i < |c|
    ensures IndexOf(Joined(before, ix, c[..i + 1]), p) == IndexOf(JoinRow(before, Joined(before, ix, c[..i]), c[i]), p)
  {
    hide Joined, AddedTo, Get;
    AddedOne(before, c, i, p);
    JoinedIndex(before, ix, c[..i], p);
    JoinedIndex(before, ix, c[..i + 1], p);
  }

  lemma JoinedKeys(rows: Rows, ix: Indexes, c: seq<Row>)
    ensures Joined(rows, ix, c).Keys == ix.Keys + Touched(rows, c)
  {
  }

  lemma JoinedIndex(rows: Rows, ix: Indexes, c: seq<Row>, p: string)
    ensures IndexOf(Joined(rows, ix, c), p) == IndexOf(ix, p) + AddedTo(rows, c, p)
  {
    if r :| r in c && r.project == p && Get(rows, r.id) != Some(r) {
      assert p in Touched(rows, c);
    } else {
      assert AddedTo(rows, c, p) == {};
    }
  }

  lemma UnlistedIndex(rows: Rows, ix: Indexes, gone: set<nat>, p: string)
    ensures IndexOf(Unlisted(rows, ix, gone), p) == IndexOf(ix, p) - GoneFrom(rows, gone, p)
  {
  }

  lemma NothingJoined(rows: Rows, ix: Indexes, c: seq<Row>)
    requires forall r :: r in c ==> Get(rows, r.id) == Some(r)
    ensures Joined(rows, ix, c) == ix
  {
    assert Touched(rows, c) == {};
    forall p | p in ix ensures Joined(rows, ix, c)[p] == ix[p] {
      assert AddedTo(rows, c, p) == {};
    }
  }

  lemma NothingUnlisted(rows: Rows, ix: Indexes)
    ensures Unlisted(rows, ix, {}) == ix
  {
    forall p | p in ix ensures Unlisted(rows, ix, {})[p] == ix[p] {
      assert GoneFrom(rows, {}, p) == {};
    }
  }

  lemma UnlistOne(rows: Rows, ix: Indexes, gone: set<nat>, id: nat)
    requires id in rows && rows[id].project in ix
    ensures var now, p := Unlisted(rows, ix, gone), rows[id].project;
            Unlisted(rows, ix, gone + {id}) == now[p := IndexOf(now, p) - {id}]
  {
    var now, next, own := Unlisted(rows, ix, gone), Unlisted(rows, ix, gone + {id}), rows[id].project;
    forall p | p in ix ensures next[p] == if p == own then now[p] - {id} else now[p] {
      assert GoneFrom(rows, gone + {id}, p) == GoneFrom(rows, gone, p) + (if own == p then {id} else {});
    }
    SameIndexes(next, now[own := IndexOf(now, own) - {id}]);
  }

  lemma UnlistedTwice(rows: Rows, ix: Indexes, one: set<nat>, two: set<nat>)
    requires one !! two
    ensures Unlisted(rows - one, Unlisted(rows, ix, one), two) == Unlisted(rows, ix, one + two)
  {
    var a, b := Unlisted(rows - one, Unlisted(rows, ix, one), two), Unlisted(rows, ix, one + two);
    forall p | p in ix ensures a[p] == b[p] {
      assert GoneFrom(rows, one + two, p) == GoneFrom(rows, one, p) + GoneFrom(rows - one, two, p);
    }
    SameIndexes(a, b);
  }

  /** Deleting rows with their own entries keeps the others indexed. */
  lemma StillIndexed(rows: Rows, ix: Indexes, gone: set<nat>)
    requires Indexed(rows, ix)
    ensures Indexed(rows - gone, Unlisted(rows, ix, gone))
  {
    forall id | id in rows - gone ensures id in IndexOf(Unlisted(rows, ix, gone), (rows - gone)[id].project) {
      UnlistedIndex(rows, ix, gone, rows[id].project);
    }
  }

  lemma {:induction false} SweptIsThere(rows: Rows, ix: Indexes, projects: seq<string>, keep: set<nat>)
    ensures Swept(rows, ix, projects, keep) <= rows.Keys && Swept(rows, ix, projects, keep) !! keep
    decreases projects
  {
    if projects != [] {
      var gone := Shown(rows, ix, projects[0]) - keep;
      SweptIsThere(rows - gone, Unlisted(rows, ix, gone), projects[1..], keep);
    }
  }

  lemma Apart(before: Rows, gone: set<nat>, more: set<nat>)
    requires gone <= before.Keys && more <= (before - gone).Keys
    ensures more <= before.Keys && more !! gone && |gone + more| == |gone| + |more|
    ensures before - gone - more == before - (gone + more)
  {
  }

  lemma SweptOne(rows: Rows, ix: Indexes, projects: seq<string>, j: nat, keep: set<nat>)
    requires j < |projects|
    ensures var more := Shown(rows, ix, projects[j]) - keep;
            && more <= rows.Keys
            && Swept(rows, ix, projects[j..], keep)
               == more + Swept(rows - more, Unlisted(rows, ix, more), projects[j + 1..], keep)
  {
    assert projects[j..][0] == projects[j] && projects[j..][1..] == projects[j + 1..];
  }

  /** One round of the loop over projects. */
  lemma OneProject(before: Rows, ix: Indexes, gone: set<nat>, projects: seq<string>, j: nat, keep: set<nat>)
    requires j < |projects| && gone <= before.Keys
    ensures var rows, now := before - gone, Unlisted(before, ix, gone);
            var more := Shown(rows, now, projects[j]) - keep;
            && more <= before.Keys && more !! gone && |gone + more| == |gone| + |more|
            && rows - more == before - (gone + more)
            && Unlisted(rows, now, more) == Unlisted(before, ix, gone + more)
            && Swept(rows, now, projects[j..], keep)
               == more + Swept(before - (gone + more), Unlisted(before, ix, gone + more), projects[j + 1..], keep)
  {
    hide Unlisted, Shown, Swept;
    var rows, now := before - gone, Unlisted(before, ix, gone);
    var more := Shown(rows, now, projects[j]) - keep;
    SweptOne(rows, now, projects, j, keep);
    Apart(before, gone, more);
    UnlistedTwice(before, ix, gone, more);
  }

  class ProjectTable {
    var rows: Rows
    var indexes: Indexes

    ghost predicate Valid()
      reads this
    {
      Indexed(rows, indexes)
    }

    constructor ()
      ensures Valid() && rows == map[] && indexes == map[]
    {
      rows, indexes := map[], map[];
    }

    /** The index entry of an earlier project is left behind. */
    method Put(mode: Mode, r: Row) returns (ok: bool)
      requires Valid()
      modifies this
      ensures Valid() && ok == (mode.Create? == (r.id !in old(rows)))
      ensures rows == if ok then old(rows)[r.id := r] else old(rows)
      ensures indexes == if ok then old(indexes)[r.project := IndexOf(old(indexes), r.project) + {r.id}] else old(indexes)
    {
      ok := mode.Create? == (r.id !in rows);
      if ok {
        rows, indexes := rows[r.id := r], indexes[r.project := IndexOf(indexes, r.project) + {r.id}];
      }
    }

    method Delete(r: Row)
      requires Valid() && Get(rows, r.id) == Some(r)
      modifies this
      ensures Valid() && rows == old(rows) - {r.id}
      ensures indexes == old(indexes)[r.project := IndexOf(old(indexes), r.project) - {r.id}]
    {
      rows, indexes := rows - {r.id}, indexes[r.project := IndexOf(indexes, r.project) - {r.id}];
    }

    method Upsert(c: seq<Row>) returns (ok: bool, rebuilt: nat)
      requires Valid() && Unique(c)
      modifies this
      ensures Valid() && ok && rebuilt == |Differing(old(rows), c)|
      ensures Overlaid(old(rows), c, rows) && rows == Overlay(old(rows), c)
      ensures indexes == Joined(old(rows), old(indexes), c)
    {
      hide Overlaid, Differing, Ids, Unique, Indexed, Joined;
      ok, rebuilt := true, 0;
      ghost var before, ix := rows, indexes;
      Nothing(rows, c);
      NothingJoined(rows, ix, c[..0]);
      for i := 0 to |c|
        invariant Valid() && ok && Overlaid(before, c[..i], rows) && rebuilt == |Differing(before, c[..i])|
        invariant indexes == Joined(before, ix, c[..i])
      {
        var current := Get(rows, c[i].id);
        NotYet(before, c, i, rows);
        OneMore(before, c, i);
        JoinOne(before, c, i, ix);
        ghost var was := rows;
        if current != Some(c[i]) {
          ok := Put(if current.None? then Create else Update, c[i]);
          rebuilt := rebuilt + 1;
        }
        OverlayOne(before, c, i, was, rows);
      }
      assert c[..|c|] == c;
      OneOverlay(before, c, rows);
    }

    /** One project's listing: delete what is not canonical. */
    method RemoveStale(listed: seq<Row>, keep: set<nat>) returns (removed: nat)
      requires Valid() && Unique(listed)
      requires forall r :: r in listed ==> Get(rows, r.id) == Some(r)
      modifies this
      ensures Valid() && rows == old(rows) - (Ids(listed) - keep) && removed == |Ids(listed) - keep|
      ensures indexes == Unlisted(old(rows), old(indexes), Ids(listed) - keep)
    {
      IndexedProjects(rows, indexes);
      hide Unique, Indexed, Ids, Unlisted, IndexOf, Get;
      ghost var before, ix, gone := rows, indexes, {};
      removed := 0;
      NoneGone(listed, keep, before);
      NothingUnlisted(before, ix);
      for j := 0 to |listed|
        invariant Valid() && gone == Ids(listed[..j]) - keep && removed == |gone|
        invariant rows == before - gone && indexes == Unlisted(before, ix, gone)
      {
        var r := listed[j];
        assert r in listed && Get(before, r.id) == Some(r);
        GoneGrows(listed, j, keep);
        if r.id !in keep {
          MinusOne(before, gone, r);
          UnlistOne(before, ix, gone, r.id);
          gone := gone + {r.id};
          Delete(r);
          removed := removed + 1;
        }
      }
      assert listed[..|listed|] == listed;
    }

    /** One tracked project: list it, delete what is not canonical. */
    method RemoveListed(p: string, keep: set<nat>) returns (removed: nat)
      requires Valid()
      modifies this
      ensures Valid()
      ensures var gone := Shown(old(rows), old(indexes), p) - keep;
              rows == old(rows) - gone && indexes == Unlisted(old(rows), old(indexes), gone) && removed == |gone|
    {
      IndexedProjects(rows, indexes);
      hide Unique, Indexed, Ids, Unlisted, Visible, Keyed, IndexOf;
      var listed := ListRows(rows, IndexOf(indexes, p));
      removed := RemoveStale(listed, keep);
    }

    /** The loop over tracked projects. */
    method RemoveUntracked(projects: seq<string>, keep: set<nat>) returns (removed: nat)
      requires Valid()
      modifies this
      ensures Valid()
      ensures var gone := Swept(old(rows), old(indexes), projects, keep);
              rows == old(rows) - gone && indexes == Unlisted(old(rows), old(indexes), gone) && removed == |gone|
    {
      hide Unique, Indexed, Visible, Unlisted, IndexOf, Shown, Swept;
      ghost var before, ix, gone := rows, indexes, {};
      removed := 0;
      NothingUnlisted(before, ix);
      assert projects[0..] == projects && before - {} == before;
      for j := 0 to |projects|
        invariant Valid() && gone <= before.Keys && removed == |gone|
        invariant rows == before - gone && indexes == Unlisted(before, ix, gone)
        invariant Swept(before, ix, projects, keep) == gone + Swept(rows, indexes, projects[j..], keep)
      {
        OneProject(before, ix, gone, projects, j, keep);
        gone := gone + (Shown(rows, indexes, projects[j]) - keep);
        var n := RemoveListed(projects[j], keep);
        removed := removed + n;
      }
      SweptNone(rows, indexes, projects[|projects|..], keep);
    }

    method Reconcile(c: seq<Row>, projects: seq<string>) returns (ok: bool, rebuilt: nat, removed: nat)
      requires Valid() && Unique(c)
      modifies this
      ensures Valid() && ok
      ensures Bindings(rows, indexes) == RunOnce(Bindings(old(rows), old(indexes)), c, projects)
      ensures Settled(old(rows), Stale(Bindings(old(rows), old(indexes)), c, projects), c, rows)
      ensures rebuilt == |Differing(old(rows), c)|
      ensures removed == |Stale(Bindings(old(rows), old(indexes)), c, projects)|
    {
      hide Indexed, Unique, Joined, Overlay, Overlaid, Differing, Swept, Ids, Settled, Unlisted;
      ghost var before, ix := rows, indexes;
      ok, rebuilt := Upsert(c);
      removed := RemoveUntracked(projects, Ids(c));
      RunSettles(Bindings(before, ix), c, projects);
    }
  }

  lemma MinusOne(rows: Rows, gone: set<nat>, r: Row)
    requires Get(rows, r.id) == Some(r) && r.id !in gone
    ensures Get(rows - gone, r.id) == Some(r) && rows - gone - {r.id} == rows - (gone + {r.id})
    ensures r.id in rows && rows[r.id] == r
    ensures |gone + {r.id}| == |gone| + 1
  {
  }

  lemma SweptNone(rows: Rows, ix: Indexes, projects: seq<string>, keep: set<nat>)
    requires projects == []
    ensures Swept(rows, ix, projects, keep) == {}
  {
  }

  lemma IndexedProjects(rows: Rows, ix: Indexes)
    requires Indexed(rows, ix)
    ensures Keyed(rows) && forall id :: id in rows ==> rows[id].project in ix
  {
    forall id | id in rows ensures rows[id].project in ix {
      assert id in IndexOf(ix, rows[id].project);
    }
  }

  // ---------------------------------------------------------------- a run over project bindings

  datatype Bindings = Bindings(rows: Rows, ix: Indexes)

  /** Both halves of a run: the canonical rows go in, and what the listings then show goes. */
  function RunOnce(b: Bindings, c: seq<Row>, projects: seq<string>): Bindings {
    var rows, ix := Overlay(b.rows, c), Joined(b.rows, b.ix, c);
    Bindings(rows - Stale(b, c, projects), Unlisted(rows, ix, Stale(b, c, projects)))
  }

  /** What a run deletes. */
  function Stale(b: Bindings, c: seq<Row>, projects: seq<string>): set<nat> {
    Swept(Overlay(b.rows, c), Joined(b.rows, b.ix, c), projects, Ids(c))
  }

  lemma StaleIsThere(b: Bindings, c: seq<Row>, projects: seq<string>)
    requires Unique(c)
    ensures Stale(b, c, projects) !! Ids(c) && Stale(b, c, projects) <= b.rows.Keys
    ensures Overlaid(b.rows, c, Overlay(b.rows, c))
  {
    OverlayIsOverlaid(b.rows, c);
    var rows := Overlay(b.rows, c);
    SweptIsThere(rows, Joined(b.rows, b.ix, c), projects, Ids(c));
    forall id | id in Stale(b, c, projects) ensures id in b.rows {
      assert Get(rows, id) == Get(b.rows, id);
    }
  }

  lemma RunSettles(b: Bindings, c: seq<Row>, projects: seq<string>)
    requires Unique(c)
    ensures Settled(b.rows, Stale(b, c, projects), c, RunOnce(b, c, projects).rows)
  {
    StaleIsThere(b, c, projects);
    hide Stale, Joined, Overlay, Unlisted;
    var rows, after := Overlay(b.rows, c), RunOnce(b, c, projects).rows;
    forall r | r in c ensures Get(after, r.id) == Some(r) {
      assert r.id in Ids(c) && Get(rows, r.id) == Some(r);
    }
    forall id | id !in Ids(c) ensures Get(after, id) == if id in Stale(b, c, projects) then None else Get(b.rows, id) {
      assert Get(rows, id) == Get(b.rows, id);
    }
  }

  /** The indexes after a run, entry by entry. */
  lemma RunIndexes(b: Bindings, c: seq<Row>, projects: seq<string>, p: string, id: nat)
    requires Unique(c) && Indexed(b.rows, b.ix)
    ensures id in Ids(c) ==>
              (id in IndexOf(RunOnce(b, c, projects).ix, p) <==> id in IndexOf(b.ix, p) || id in OfProject(c, p))
    ensures id !in Ids(c) && id !in Stale(b, c, projects) ==>
              (id in IndexOf(RunOnce(b, c, projects).ix, p) <==> id in IndexOf(b.ix, p))
    ensures id !in Ids(c) && id in IndexOf(RunOnce(b, c, projects).ix, p) ==> id in IndexOf(b.ix, p)
  {
    StaleIsThere(b, c, projects);
    JoinedIndex(b.rows, b.ix, c, p);
    UnlistedIndex(Overlay(b.rows, c), Joined(b.rows, b.ix, c), Stale(b, c, projects), p);
    hide Stale, Joined, Overlay, Unlisted, Unique, Overlaid;
    if id in OfProject(c, p) && id !in AddedTo(b.rows, c, p) {
      var r :| r in c && r.project == p && r.id == id;
      assert Get(b.rows, id) == Some(r);
    }
  }

  /** No stale row of `p` stays out of sight. */
  ghost predicate AllSwept(b: Bindings, c: seq<Row>, projects: seq<string>, p: string) {
    forall id :: id in b.rows && b.rows[id].project == p && id !in Ids(c) ==> id in Stale(b, c, projects)
  }

  /**
    After a run the rows that name a project are exactly its canonical bindings, if and only if
    its other rows were all in sight of the run's listings.
   */
  lemma TrackedExactly(b: Bindings, c: seq<Row>, projects: seq<string>, p: string)
    requires Unique(c)
    ensures var after := RunOnce(b, c, projects).rows;
            (forall id :: (id in after && after[id].project == p) <==> id in OfProject(c, p)) <==> AllSwept(b, c, projects, p)
    ensures forall r :: r in c ==> Get(RunOnce(b, c, projects).rows, r.id) == Some(r)
  {
    RunSettles(b, c, projects);
    StaleIsThere(b, c, projects);
    hide RunOnce, Stale, Overlay;
    var after := RunOnce(b, c, projects).rows;
    forall id ensures (id in after && after[id].project == p) <==>
                        id in OfProject(c, p)
                        || (id !in Ids(c) && id in b.rows && b.rows[id].project == p && id !in Stale(b, c, projects))
    {
      if id in Ids(c) {
        var r :| r in c && r.id == id;
        assert Get(after, r.id) == Some(r);
        if id in OfProject(c, p) {
          var x :| x in c && x.project == p && x.id == id;
          assert Get(after, x.id) == Some(x);
        }
      } else {
        assert Get(after, id) == if id in Stale(b, c, projects) then None else Get(b.rows, id);
      }
    }
    OfProjectIsCanonical(c, p);
  }

  lemma OfProjectIsCanonical(c: seq<Row>, p: string)
    ensures OfProject(c, p) <= Ids(c)
  {
  }

  // ---------------------------------------------------------------- when every listing fits

  /** Everything some tracked project has in its index. */
  function InSight(ix: Indexes, projects: seq<string>): set<nat> {
    set p, id | p in projects && id in IndexOf(ix, p) :: id
  }

  /** No tracked project's index outgrows one list call. */
  ghost predicate Fits(ix: Indexes, projects: seq<string>) {
    forall p :: p in projects ==> |IndexOf(ix, p)| <= LIST_LIMIT
  }

  lemma {:induction false} FittingIsSwept(rows: Rows, ix: Indexes, projects: seq<string>, keep: set<nat>)
    requires Fits(ix, projects)
    ensures Swept(rows, ix, projects, keep) == InSight(ix, projects) * rows.Keys - keep
    decreases projects
  {
    if projects != [] {
      var gone := Shown(rows, ix, projects[0]) - keep;
      FittingShown(rows, ix, projects[0]);
      StillFits(rows, ix, gone, projects);
      hide Unlisted, InSight, IndexOf, Shown, Fits;
      var now, rest := Unlisted(rows, ix, gone), projects[1..];
      FittingIsSwept(rows - gone, now, rest, keep);
      SightAfter(rows, ix, gone, projects);
      SweptSets(IndexOf(ix, projects[0]), InSight(ix, rest), rows.Keys, keep, gone, InSight(now, rest) * (rows - gone).Keys);
    }
  }

  lemma SweptSets(own: set<nat>, others: set<nat>, there: set<nat>, keep: set<nat>, gone: set<nat>, rest: set<nat>)
    requires gone == own * there - keep && rest == others * there - gone
    ensures gone + (rest - keep) == (own + others) * there - keep
  {
  }

  lemma FittingShown(rows: Rows, ix: Indexes, p: string)
    requires |IndexOf(ix, p)| <= LIST_LIMIT
    ensures Shown(rows, ix, p) == IndexOf(ix, p) * rows.Keys
  {
    SmallIsVisible(IndexOf(ix, p));
  }

  lemma StillFits(rows: Rows, ix: Indexes, gone: set<nat>, projects: seq<string>)
    requires projects != [] && Fits(ix, projects)
    ensures Fits(Unlisted(rows, ix, gone), projects[1..]) && projects[0] in projects
  {
    assert projects == [projects[0]] + projects[1..];
    forall q | q in projects[1..] ensures |IndexOf(Unlisted(rows, ix, gone), q)| <= LIST_LIMIT {
      UnlistedIndex(rows, ix, gone, q);
      SubsetSize(IndexOf(Unlisted(rows, ix, gone), q), IndexOf(ix, q));
    }
  }

  /** What is still indexed for the remaining projects, once `gone` has gone. */
  lemma SightAfter(rows: Rows, ix: Indexes, gone: set<nat>, projects: seq<string>)
    requires projects != [] && gone <= rows.Keys
    ensures var rest := InSight(Unlisted(rows, ix, gone), projects[1..]);
            rest * (rows - gone).Keys == InSight(ix, projects[1..]) * rows.Keys - gone
    ensures InSight(ix, projects) == IndexOf(ix, projects[0]) + InSight(ix, projects[1..])
  {
    var now := Unlisted(rows, ix, gone);
    forall id | id in rows && id !in gone ensures id in InSight(now, projects[1..]) <==> id in InSight(ix, projects[1..]) {
      forall p ensures id in IndexOf(now, p) <==> id in IndexOf(ix, p) {
        UnlistedIndex(rows, ix, gone, p);
      }
    }
    assert projects == [projects[0]] + projects[1..];
  }

  /** When every tracked index fits one list call, its stale rows are all in sight. */
  lemma FitsSweepsAll(b: Bindings, c: seq<Row>, projects: seq<string>)
    requires Unique(c) && Indexed(b.rows, b.ix) && Fits(Joined(b.rows, b.ix, c), projects)
    ensures forall p :: p in projects ==> AllSwept(b, c, projects, p)
  {
    FittingIsSwept(Overlay(b.rows, c), Joined(b.rows, b.ix, c), projects, Ids(c));
    OverlayIsOverlaid(b.rows, c);
    hide Joined, Overlay, Swept;
    forall p, id | p in projects && id in b.rows && b.rows[id].project == p && id !in Ids(c)
      ensures id in Stale(b, c, projects)
    {
      assert Get(Overlay(b.rows, c), id) == Get(b.rows, id);
      JoinedIndex(b.rows, b.ix, c, p);
      assert id in IndexOf(b.ix, p);
    }
  }

  // ---------------------------------------------------------------- running again

  /** No tracked project's listing shows anything but canonical ids. */
  ghost predicate NothingShown(b: Bindings, c: seq<Row>, projects: seq<string>) {
    forall p :: p in projects ==> Shown(b.rows, b.ix, p) <= Ids(c)
  }

  lemma {:induction false} SweepsNothing(rows: Rows, ix: Indexes, projects: seq<string>, keep: set<nat>)
    ensures Swept(rows, ix, projects, keep) == {} <==> forall p :: p in projects ==> Shown(rows, ix, p) <= keep
    decreases projects
  {
    if projects != [] {
      var p := projects[0];
      assert projects == [p] + projects[1..];
      var gone := Shown(rows, ix, p) - keep;
      if gone == {} {
        NothingUnlisted(rows, ix);
        assert rows - {} == rows;
        SweepsNothing(rows, ix, projects[1..], keep);
      }
    }
  }

  /**
    Once the canonical rows are in place, a run writes nothing; it removes nothing if and only if
    no tracked project's listing shows a stale row, and then it changes nothing at all.
   */
  lemma QuietExactlyWhen(b: Bindings, c: seq<Row>, projects: seq<string>)
    requires forall r :: r in c ==> Get(b.rows, r.id) == Some(r)
    requires Unique(c)
    ensures Differing(b.rows, c) == {}
    ensures Stale(b, c, projects) == {} <==> NothingShown(b, c, projects)
    ensures NothingShown(b, c, projects) <==> RunOnce(b, c, projects) == b
    ensures RunOnce(b, c, projects).rows == b.rows - Stale(b, c, projects)
  {
    InPlace(b, c);
    SweepsNothing(b.rows, b.ix, projects, Ids(c));
    StaleIsThere(b, c, projects);
    NothingUnlisted(b.rows, b.ix);
    assert b.rows - {} == b.rows;
    hide Swept, Shown, Unlisted;
    if id :| id in Stale(b, c, projects) {
      assert id in b.rows && id !in RunOnce(b, c, projects).rows;
    }
  }

  lemma InPlace(b: Bindings, c: seq<Row>)
    requires Unique(c) && forall r :: r in c ==> Get(b.rows, r.id) == Some(r)
    ensures Overlay(b.rows, c) == b.rows && Joined(b.rows, b.ix, c) == b.ix
  {
    NothingJoined(b.rows, b.ix, c);
    OneOverlay(b.rows, c, b.rows);
  }

  /** The second of two runs writes nothing; it is quiet exactly when the listings show nothing stale. */
  lemma SecondRunQuiet(b: Bindings, c: seq<Row>, projects: seq<string>)
    requires Unique(c)
    ensures var b' := RunOnce(b, c, projects);
            && Differing(b'.rows, c) == {}
            && (Stale(b', c, projects) == {} <==> NothingShown(b', c, projects))
            && (NothingShown(b', c, projects) <==> RunOnce(b', c, projects) == b')
  {
    RunSettles(b, c, projects);
    hide RunOnce, Stale, NothingShown, Differing;
    QuietExactlyWhen(RunOnce(b, c, projects), c, projects);
  }

  function Runs(b: Bindings, c: seq<Row>, projects: seq<string>, n: nat): Bindings {
    if n == 0 then b else RunOnce(Runs(b, c, projects, n - 1), c, projects)
  }

  lemma {:induction false} RunsInPlace(b: Bindings, c: seq<Row>, projects: seq<string>, n: nat)
    requires Unique(c) && 0 < n
    ensures forall r :: r in c ==> Get(Runs(b, c, projects, n).rows, r.id) == Some(r)
  {
    hide RunOnce, Stale;
    RunSettles(Runs(b, c, projects, n - 1), c, projects);
  }

  /** Each further run removes a stale row, or the projection has come to rest. */
  lemma {:induction false} EachRunOrRest(b: Bindings, c: seq<Row>, projects: seq<string>, n: nat)
    requires Unique(c)
    ensures var first, now := RunOnce(b, c, projects), Runs(b, c, projects, n + 1);
            RunOnce(now, c, projects) == now || |now.rows.Keys - Ids(c)| + n <= |first.rows.Keys - Ids(c)|
  {
    hide RunOnce, Stale, NothingShown, Differing, Ids;
    if n > 0 {
      EachRunOrRest(b, c, projects, n - 1);
      var was, now := Runs(b, c, projects, n), Runs(b, c, projects, n + 1);
      RunsInPlace(b, c, projects, n);
      QuietExactlyWhen(was, c, projects);
      if now != was {
        StaleIsThere(was, c, projects);
        Fewer(was.rows.Keys, Stale(was, c, projects), Ids(c));
        assert now.rows.Keys == was.rows.Keys - Stale(was, c, projects);
      }
    }
  }

  lemma Fewer(all: set<nat>, gone: set<nat>, keep: set<nat>)
    requires gone != {} && gone <= all && gone !! keep
    ensures |all - gone - keep| < |all - keep|
  {
    var a, b := all - gone - keep, all - keep;
    assert b == a + gone && a !! gone;
  }

  lemma AtRest(b: Bindings, c: seq<Row>, projects: seq<string>)
    requires Unique(c) && (forall r :: r in c ==> Get(b.rows, r.id) == Some(r)) && |b.rows.Keys - Ids(c)| == 0
    ensures RunOnce(b, c, projects) == b
  {
    hide RunOnce, Stale, NothingShown, Differing, Ids;
    StaleIsThere(b, c, projects);
    QuietExactlyWhen(b, c, projects);
    assert Stale(b, c, projects) <= b.rows.Keys - Ids(c);
  }

  /** After as many further runs as the first one left stale rows, the projection is at rest. */
  lemma ComesToRest(b: Bindings, c: seq<Row>, projects: seq<string>, n: nat)
    requires Unique(c) && n > |RunOnce(b, c, projects).rows.Keys - Ids(c)|
    ensures var now := Runs(b, c, projects, n); NothingShown(now, c, projects) && RunOnce(now, c, projects) == now
  {
    hide RunOnce, Stale, NothingShown, Differing, Ids, Runs;
    EachRunOrRest(b, c, projects, n - 1);
    RunsInPlace(b, c, projects, n);
    if RunOnce(Runs(b, c, projects, n), c, projects) != Runs(b, c, projects, n) {
      AtRest(Runs(b, c, projects, n), c, projects);
    }
    QuietExactlyWhen(Runs(b, c, projects, n), c, projects);
  }

  /** A full window of canonical ids sorts before this id wherever a tracked project has it. */
  ghost predicate BehindCanonical(ix: Indexes, c: seq<Row>, projects: seq<string>, id: nat) {
    forall p :: p in projects && id in IndexOf(ix, p) ==> |Below(OfProject(c, p), id)| >= LIST_LIMIT
  }

  lemma {:induction false} NeverSwept(rows: Rows, ix: Indexes, c: seq<Row>, projects: seq<string>, id: nat)
    requires BehindCanonical(ix, c, projects, id) && forall p :: p in projects ==> OfProject(c, p) <= IndexOf(ix, p)
    ensures id !in Swept(rows, ix, projects, Ids(c))
    decreases projects
  {
    if projects != [] {
      var p := projects[0];
      assert projects == [p] + projects[1..];
      var gone := Shown(rows, ix, p) - Ids(c);
      var now := Unlisted(rows, ix, gone);
      if id in IndexOf(ix, p) {
        SubsetSize(Below(OfProject(c, p), id), Below(IndexOf(ix, p), id));
      }
      forall q | q in projects[1..]
        ensures OfProject(c, q) <= IndexOf(now, q) && (id in IndexOf(now, q) ==> id in IndexOf(ix, q))
      {
        UnlistedIndex(rows, ix, gone, q);
        OfProjectIsCanonical(c, q);
      }
      NeverSwept(rows - gone, now, c, projects[1..], id);
    }
  }

  /** A stale row behind such a window stays for good, however often the run is repeated. */
  lemma {:induction false} HiddenForGood(b: Bindings, c: seq<Row>, projects: seq<string>, id: nat, n: nat)
    requires Unique(c) && Indexed(b.rows, b.ix) && id in b.rows && id !in Ids(c)
    requires BehindCanonical(b.ix, c, projects, id)
    ensures var now := Runs(b, c, projects, n);
            && id in now.rows && now.rows[id] == b.rows[id] && Indexed(now.rows, now.ix)
            && BehindCanonical(now.ix, c, projects, id)
  {
    if n > 0 {
      HiddenForGood(b, c, projects, id, n - 1);
      HiddenOnce(Runs(b, c, projects, n - 1), c, projects, id);
    }
  }

  lemma HiddenOnce(b: Bindings, c: seq<Row>, projects: seq<string>, id: nat)
    requires Unique(c) && Indexed(b.rows, b.ix) && id in b.rows && id !in Ids(c)
    requires BehindCanonical(b.ix, c, projects, id)
    ensures var now := RunOnce(b, c, projects);
            && id in now.rows && now.rows[id] == b.rows[id] && Indexed(now.rows, now.ix)
            && BehindCanonical(now.ix, c, projects, id)
  {
    JoinedIndexed(b, c);
    StillIndexed(Overlay(b.rows, c), Joined(b.rows, b.ix, c), Stale(b, c, projects));
    RunSettles(b, c, projects);
    var ix := Joined(b.rows, b.ix, c);
    forall p ensures OfProject(c, p) <= IndexOf(ix, p) && (id in IndexOf(ix, p) ==> id in IndexOf(b.ix, p)) {
      CanonicalIndexed(b, c, p);
      JoinedIndex(b.rows, b.ix, c, p);
    }
    NeverSwept(Overlay(b.rows, c), ix, c, projects, id);
    hide Joined, Overlay, Unlisted, Swept, Unique, Indexed, LIST_LIMIT;
    var now := RunOnce(b, c, projects);
    assert Get(now.rows, id) == Get(b.rows, id);
    forall p | p in projects && id in IndexOf(now.ix, p) ensures |Below(OfProject(c, p), id)| >= LIST_LIMIT {
      RunIndexes(b, c, projects, p, id);
    }
  }

  lemma CanonicalIndexed(b: Bindings, c: seq<Row>, p: string)
    requires Indexed(b.rows, b.ix)
    ensures OfProject(c, p) <= IndexOf(Joined(b.rows, b.ix, c), p)
  {
    JoinedIndex(b.rows, b.ix, c, p);
    hide Joined;
    forall r | r in c && r.project == p ensures r.id in IndexOf(b.ix, p) + AddedTo(b.rows, c, p) {
      if Get(b.rows, r.id) == Some(r) {
        assert r.id in IndexOf(b.ix, p);
      }
    }
  }

  lemma JoinedIndexed(b: Bindings, c: seq<Row>)
    requires Unique(c) && Indexed(b.rows, b.ix)
    ensures Indexed(Overlay(b.rows, c), Joined(b.rows, b.ix, c))
  {
    OverlayIsOverlaid(b.rows, c);
    hide Overlay, Joined, Unique;
    var rows, ix := Overlay(b.rows, c), Joined(b.rows, b.ix, c);
    forall id | id in rows ensures rows[id].id == id && id in IndexOf(ix, rows[id].project) {
      if id in Ids(c) {
        var r :| r in c && r.id == id;
        assert Get(rows, r.id) == Some(r);
        CanonicalIndexed(b, c, r.project);
        assert r.id in OfProject(c, r.project);
      } else {
        assert Get(rows, id) == Get(b.rows, id);
        JoinedIndex(b.rows, b.ix, c, rows[id].project);
      }
    }
  }

  // ---------------------------------------------------------------- what the repository then lists

  /** No canonical binding sits in the index of a project it does not belong to. */
  ghost predicate NoneMoved(ix: Indexes, c: seq<Row>, p: string) {
    forall r :: r in c && r.id in IndexOf(ix, p) ==> r.project == p
  }

  /** Every stale row in the index of `p` was in sight. */
  ghost predicate IndexSwept(b: Bindings, c: seq<Row>, projects: seq<string>, p: string) {
    forall id :: id in IndexOf(b.ix, p) && id in b.rows && id !in Ids(c) ==> id in Stale(b, c, projects)
  }

  /**
    The rows in a project's index after a run are exactly its canonical bindings, if and only if
    no canonical binding of another project was in it before, since a binding that moved keeps the
    entry of the project it left, and every stale row in it was in sight.
   */
  lemma ListedExactlyWhen(b: Bindings, c: seq<Row>, projects: seq<string>, p: string)
    requires Unique(c) && Indexed(b.rows, b.ix)
    ensures var b' := RunOnce(b, c, projects);
            IndexOf(b'.ix, p) * b'.rows.Keys == OfProject(c, p) <==> NoneMoved(b.ix, c, p) && IndexSwept(b, c, projects, p)
  {
    RunSettles(b, c, projects);
    OneProjectEach(c, p);
    OfProjectIsCanonical(c, p);
    hide RunOnce, Stale, Unique, Indexed;
    var b' := RunOnce(b, c, projects);
    var there := IndexOf(b'.ix, p) * b'.rows.Keys;
    forall r | r in c ensures r.id in there <==> r.id in IndexOf(b.ix, p) || r.project == p {
      assert r.id in Ids(c) && Get(b'.rows, r.id) == Some(r);
      RunIndexes(b, c, projects, p, r.id);
    }
    forall id | id !in Ids(c)
      ensures id in there <==> id in IndexOf(b.ix, p) && id in b.rows && id !in Stale(b, c, projects)
    {
      assert Get(b'.rows, id) == if id in Stale(b, c, projects) then None else Get(b.rows, id);
      RunIndexes(b, c, projects, p, id);
    }
    if NoneMoved(b.ix, c, p) && IndexSwept(b, c, projects, p) {
      forall id ensures id in there <==> id in OfProject(c, p) {
        if id in Ids(c) {
          var r :| r in c && r.id == id;
        }
      }
    }
  }

  lemma OneProjectEach(c: seq<Row>, p: string)
    requires Unique(c)
    ensures forall r :: r in c ==> (r.id in OfProject(c, p) <==> r.project == p)
  {
    forall r, x | r in c && x in c && r.id == x.id ensures r == x {
    }
  }

  // ---------------------------------------------------------------- capability bindings, run after run

  /**
    A run that ends well leaves the canonical capability bindings and the rows its listing did not
    show: exactly the canonical ones, if and only if the table fitted one listing. The next run
    ends well exactly when it sees every canonical one, and has nothing to do exactly when it sees
    these and no others.
   */
  lemma NextRunExactlyWhen(before: Rows, c: seq<Row>, after: Rows)
    requires Unique(c) && AllSeen(before, before.Keys, c) && Settled(before, Visible(before.Keys), c, after)
    ensures after.Keys == Ids(c) + (before.Keys - Visible(before.Keys))
    ensures after.Keys == Ids(c) <==> |before| <= LIST_LIMIT
    ensures AllSeen(after, after.Keys, c) <==> Ids(c) <= Visible(after.Keys)
    ensures Differing(after, c) == {}
    ensures AllSeen(after, after.Keys, c) && Visible(after.Keys) - Ids(c) == {} <==> Visible(after.Keys) == Ids(c)
    ensures |before| <= LIST_LIMIT ==> (AllSeen(after, after.Keys, c) <==> |Ids(c)| <= LIST_LIMIT)
  {
    hide Unique, Visible, AllSeen, Differing;
    KeysAfter(before, c, after);
    if |before| <= LIST_LIMIT {
      SmallIsVisible(before.Keys);
      SeenExactlyWhen(after, c);
    } else {
      LargeHides(before.Keys);
      var id :| id in before.Keys && id !in Visible(before.Keys);
      HiddenIsForeign(before, c, id);
    }
    SeenMeans(after, c);
    InPlaceNothingDiffers(after, c);
  }

  lemma InPlaceNothingDiffers(rows: Rows, c: seq<Row>)
    requires forall r :: r in c ==> Get(rows, r.id) == Some(r)
    ensures Differing(rows, c) == {}
  {
  }

  lemma SeenMeans(rows: Rows, c: seq<Row>)
    requires Ids(c) <= rows.Keys
    ensures AllSeen(rows, rows.Keys, c) <==> Ids(c) <= Visible(rows.Keys)
  {
    hide Visible;
    assert forall r :: r in c ==> r.id in Ids(c);
  }

  lemma HiddenIsForeign(rows: Rows, c: seq<Row>, id: nat)
    requires AllSeen(rows, rows.Keys, c) && id in rows && id !in Visible(rows.Keys)
    ensures id !in Ids(c)
  {
    hide Visible;
  }

  lemma KeysAfter(before: Rows, c: seq<Row>, after: Rows)
    requires Settled(before, Visible(before.Keys), c, after)
    ensures after.Keys == Ids(c) + (before.Keys - Visible(before.Keys))
  {
    hide Visible;
    forall id ensures id in after <==> id in Ids(c) || (id in before && id !in Visible(before.Keys)) {
      if id in Ids(c) {
        var r :| r in c && r.id == id;
        assert Get(after, r.id) == Some(r);
      } else {
        assert Get(after, id) == if id in Visible(before.Keys) then None else Get(before, id);
      }
    }
  }

  lemma SeenExactlyWhen(rows: Rows, c: seq<Row>)
    requires rows.Keys == Ids(c)
    ensures AllSeen(rows, rows.Keys, c) <==> |Ids(c)| <= LIST_LIMIT
  {
    if |Ids(c)| <= LIST_LIMIT {
      SmallIsVisible(rows.Keys);
    } else {
      LargeHides(rows.Keys);
      var id :| id in rows.Keys && id !in Visible(rows.Keys);
      var r :| r in c && r.id == id;
      assert r.id in rows;
    }
  }

  // ---------------------------------------------------------------- the whole run

  datatype Canonical = Canonical(
    projects: seq<string>, agents: seq<Row>, capabilities: seq<Row>, profiles: seq<Row>,
    capabilityBindings: seq<Row>, projectBindings: seq<Row>)
  {
    predicate Valid() {
      && Unique(agents) && Unique(capabilities) && Unique(profiles)
      && Unique(capabilityBindings) && Unique(projectBindings)
    }
  }

  class Repository {
    const agents: Table
    const capabilities: Table
    const profiles: Table
    const capabilityBindings: IndexedTable
    const projectBindings: ProjectTable

    ghost predicate Valid()
      reads this, capabilityBindings, projectBindings
    {
      && agents != capabilities && agents != profiles && capabilities != profiles
      && capabilityBindings.Valid() && projectBindings.Valid()
    }

    constructor ()
      ensures Valid()
    {
      agents := new Table();
      capabilities := new Table();
      profiles := new Table();
      capabilityBindings := new IndexedTable();
      projectBindings := new ProjectTable();
    }

    /** `ok` is false when a capability binding beyond the list limit made an upsert fail. */
    method ReconcileCanonicalState(state: Canonical) returns (ok: bool, rebuilt: nat, removed: nat)
      requires Valid() && state.Valid()
      modifies agents, capabilities, profiles, capabilityBindings, projectBindings
      ensures Valid()
      ensures Overlaid(old(agents.rows), state.agents, agents.rows)
      ensures Overlaid(old(capabilities.rows), state.capabilities, capabilities.rows)
      ensures Overlaid(old(profiles.rows), state.profiles, profiles.rows)
      ensures ok <==> AllSeen(old(capabilityBindings.rows), old(capabilityBindings.index), state.capabilityBindings)
      ensures ok ==>
                Settled(old(capabilityBindings.rows), Visible(old(capabilityBindings.index)), state.capabilityBindings,
                        capabilityBindings.rows)
      ensures ok ==>
                var was := Bindings(old(projectBindings.rows), old(projectBindings.indexes));
                && Bindings(projectBindings.rows, projectBindings.indexes) == RunOnce(was, state.projectBindings, state.projects)
                && Settled(was.rows, Stale(was, state.projectBindings, state.projects), state.projectBindings,
                           projectBindings.rows)
      ensures ok ==>
                rebuilt == |Differing(old(agents.rows), state.agents)| + |Differing(old(capabilities.rows), state.capabilities)|
                         + |Differing(old(profiles.rows), state.profiles)|
                         + |Differing(old(capabilityBindings.rows), state.capabilityBindings)|
                         + |Differing(old(projectBindings.rows), state.projectBindings)|
      ensures ok ==>
                removed == |Visible(old(capabilityBindings.index)) - Ids(state.capabilityBindings)|
                         + |Stale(Bindings(old(projectBindings.rows), old(projectBindings.indexes)), state.projectBindings,
                                  state.projects)|
    {
      hide Overlaid, Settled, RunOnce, Stale, Differing, Ids, Visible, AllSeen, Unique, Indexed, Keyed;
      rebuilt, removed := 0, 0;
      var n, m;
      ok, n := agents.Rebuild(state.agents);
      rebuilt := rebuilt + n;
      ok, n := capabilities.Rebuild(state.capabilities);
      rebuilt := rebuilt + n;
      ok, n := profiles.Rebuild(state.profiles);
      rebuilt := rebuilt + n;
      ok, n, m := capabilityBindings.Reconcile(state.capabilityBindings);
      if !ok {
        return;
      }
      rebuilt, removed := rebuilt + n, removed + m;
      ok, n, m := projectBindings.Reconcile(state.projectBindings, state.projects);
      rebuilt, removed := rebuilt + n, removed + m;
    }
  }
}

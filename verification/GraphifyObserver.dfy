/**
  The reduction in `observe`: graphify's symbols to the files that hold them, and its links to
  imports between files. `resolve` answers for every source path which project file it names.
 */
module GraphifyObserver {
  import opened Prelude

  datatype RawNode =
    | BadNode
    | Node(id: string, source: string, community: Option<int>, name: Option<string>)

  datatype RawLink =
    | BadLink
    | Link(from: string, to: string, relation: string, confidence: Option<string>, line: Option<nat>)

  type Paths = map<string, string>

  datatype Entry = Entry(symbols: nat, communities: set<int>, name: Option<string>)

  datatype Confidence = Medium | Low

  datatype Import = Import(confidence: Confidence, line: Option<nat>)

  const MAX_NAME := 256

  /** The project file a node lives in, if it has one. */
  function PathOf(n: RawNode, resolve: Paths): Option<string> {
    if n.Node? && n.source in resolve then Some(resolve[n.source]) else None
  }

  function Last<T>(s: seq<T>): T
    requires s != []
  {
    s[|s| - 1]
  }

  function Front<T>(s: seq<T>): seq<T>
    requires s != []
  {
    s[..|s| - 1]
  }

  // ---------------------------------------------------------------- what the nodes say

  function AllPaths(nodes: seq<RawNode>, resolve: Paths): set<string> {
    set n | n in nodes && PathOf(n, resolve).Some? :: PathOf(n, resolve).value
  }

  /** The files that got in before the cap was reached. */
  function Admitted(nodes: seq<RawNode>, resolve: Paths, cap: nat): set<string> {
    if nodes == [] then {}
    else
      var before := Admitted(Front(nodes), resolve, cap);
      var p := PathOf(Last(nodes), resolve);
      if p.Some? && |before| < cap then before + {p.value} else before
  }

  function Here(n: RawNode, resolve: Paths, p: string): bool {
    PathOf(n, resolve) == Some(p)
  }

  function SymbolsOf(nodes: seq<RawNode>, resolve: Paths, p: string): nat {
    if nodes == [] then 0
    else SymbolsOf(Front(nodes), resolve, p) + if Here(Last(nodes), resolve, p) then 1 else 0
  }

  function CommunitiesOf(nodes: seq<RawNode>, resolve: Paths, p: string): set<int> {
    set n | n in nodes && Here(n, resolve, p) && n.community.Some? :: n.community.value
  }

  predicate Named(n: RawNode) {
    n.Node? && n.community.Some? && n.name.Some? && 0 < |n.name.value| <= MAX_NAME
  }

  /** The first acceptable community name among the file's nodes. */
  function NameOf(nodes: seq<RawNode>, resolve: Paths, p: string): Option<string> {
    if nodes == [] then None
    else
      var before := NameOf(Front(nodes), resolve, p);
      if before.None? && Here(Last(nodes), resolve, p) && Named(Last(nodes)) then Last(nodes).name else before
  }

  function EntryOf(nodes: seq<RawNode>, resolve: Paths, p: string): Entry {
    Entry(SymbolsOf(nodes, resolve, p), CommunitiesOf(nodes, resolve, p), NameOf(nodes, resolve, p))
  }

  /** Nodes that are malformed, outside the project, or beyond the cap. */
  function SkippedNodes(nodes: seq<RawNode>, resolve: Paths, cap: nat): nat {
    if nodes == [] then 0
    else
      var p := PathOf(Last(nodes), resolve);
      SkippedNodes(Front(nodes), resolve, cap)
      + if p.Some? && p.value in Admitted(nodes, resolve, cap) then 0 else 1
  }

  /** Where a node id was filed last: in a file, or as something that is no project file. */
  function FiledAs(nodes: seq<RawNode>, resolve: Paths, cap: nat, id: string): Option<Option<string>> {
    if nodes == [] then None
    else
      var n := Last(nodes);
      var p := PathOf(n, resolve);
      if n.Node? && n.id == id && (p.None? || p.value in Admitted(nodes, resolve, cap)) then Some(p)
      else FiledAs(Front(nodes), resolve, cap, id)
  }

  // ---------------------------------------------------------------- facts about them

  lemma {:induction false} AdmittedBound(nodes: seq<RawNode>, resolve: Paths, cap: nat)
    ensures Admitted(nodes, resolve, cap) <= AllPaths(nodes, resolve)
    ensures |Admitted(nodes, resolve, cap)| <= cap
    ensures |Admitted(nodes, resolve, cap)| < cap ==> Admitted(nodes, resolve, cap) == AllPaths(nodes, resolve)
  {
    if nodes != [] {
      AdmittedBound(Front(nodes), resolve, cap);
      PathsSnoc(Front(nodes), Last(nodes), resolve);
      assert nodes == Front(nodes) + [Last(nodes)];
      var p := PathOf(Last(nodes), resolve);
      var before := Admitted(Front(nodes), resolve, cap);
      if p.Some? && |before| < cap && p.value in before {
        assert before + {p.value} == before;
      }
    }
  }

  lemma PathsSnoc(nodes: seq<RawNode>, n: RawNode, resolve: Paths)
    ensures AllPaths(nodes + [n], resolve)
            == AllPaths(nodes, resolve) + if PathOf(n, resolve).Some? then {PathOf(n, resolve).value} else {}
  {
    var all := nodes + [n];
    assert all[|nodes|] == n;
    forall x | x in nodes ensures x in all {
    }
  }

  /** The cap shuts something out exactly when there are more files than it allows. */
  lemma TruncatedExactlyWhen(nodes: seq<RawNode>, resolve: Paths, cap: nat)
    ensures |AllPaths(nodes, resolve)| > cap <==> Admitted(nodes, resolve, cap) != AllPaths(nodes, resolve)
    ensures |AllPaths(nodes, resolve)| > cap ==> |Admitted(nodes, resolve, cap)| == cap
  {
    AdmittedBound(nodes, resolve, cap);
    if |AllPaths(nodes, resolve)| <= cap && Admitted(nodes, resolve, cap) != AllPaths(nodes, resolve) {
      var x :| x in AllPaths(nodes, resolve) && x !in Admitted(nodes, resolve, cap);
      SubsetSize(Admitted(nodes, resolve, cap) + {x}, AllPaths(nodes, resolve));
    }
  }

  lemma {:induction false} FiledIsAdmitted(nodes: seq<RawNode>, resolve: Paths, cap: nat, id: string)
    ensures var f := FiledAs(nodes, resolve, cap, id);
            f.Some? && f.value.Some? ==> f.value.value in Admitted(nodes, resolve, cap)
  {
    if nodes != [] {
      FiledIsAdmitted(Front(nodes), resolve, cap, id);
    }
  }

  lemma {:induction false} NothingElsewhere(nodes: seq<RawNode>, resolve: Paths, p: string)
    requires p !in AllPaths(nodes, resolve)
    ensures EntryOf(nodes, resolve, p) == Entry(0, {}, None)
  {
    if nodes != [] {
      assert nodes == Front(nodes) + [Last(nodes)];
      PathsSnoc(Front(nodes), Last(nodes), resolve);
      NothingElsewhere(Front(nodes), resolve, p);
    }
  }

  /** What one of its nodes adds to a file. */
  function Grown(e: Entry, n: RawNode): Entry
    requires n.Node?
  {
    Entry(e.symbols + 1, e.communities + (if n.community.Some? then {n.community.value} else {}),
          if e.name.None? && Named(n) then n.name else e.name)
  }

  /** One more node, seen from one file. */
  lemma EntryStep(nodes: seq<RawNode>, n: RawNode, resolve: Paths, p: string)
    ensures EntryOf(nodes + [n], resolve, p)
            == if Here(n, resolve, p) then Grown(EntryOf(nodes, resolve, p), n) else EntryOf(nodes, resolve, p)
  {
    var all := nodes + [n];
    assert Front(all) == nodes && all[|nodes|] == n;
    forall x | x in nodes ensures x in all {
    }
  }

  function Sum(order: seq<string>, files: map<string, Entry>): nat {
    if order == [] then 0
    else Sum(Front(order), files) + if Last(order) in files then files[Last(order)].symbols else 0
  }

  lemma {:induction false} SumSame(order: seq<string>, files: map<string, Entry>, p: string, e: Entry)
    requires p !in order
    ensures Sum(order, files[p := e]) == Sum(order, files)
  {
    if order != [] {
      assert Last(order) in order;
      SumSame(Front(order), files, p, e);
    }
  }

  /** One more symbol in one of the files. */
  lemma {:induction false} SumOneMore(order: seq<string>, files: map<string, Entry>, p: string, e: Entry)
    requires Distinct(order) && p in order && p in files && e.symbols == files[p].symbols + 1
    ensures Sum(order, files[p := e]) == Sum(order, files) + 1
  {
    if Last(order) == p {
      assert p !in Front(order);
      SumSame(Front(order), files, p, e);
    } else {
      assert order == Front(order) + [Last(order)];
      SumOneMore(Front(order), files, p, e);
    }
  }

  lemma SumNew(order: seq<string>, files: map<string, Entry>, p: string, e: Entry)
    requires p !in order && e.symbols == 1
    ensures Sum(order + [p], files[p := e]) == Sum(order, files) + 1
  {
    assert Front(order + [p]) == order;
    SumSame(order, files, p, e);
  }

  // ---------------------------------------------------------------- what those words mean

  /** The files a document names, node by node. */
  lemma AllPathsMeans(nodes: seq<RawNode>, resolve: Paths, p: string)
    ensures p in AllPaths(nodes, resolve)
            <==> exists k :: 0 <= k < |nodes| && nodes[k].Node? && nodes[k].source in resolve && resolve[nodes[k].source] == p
  {
    if p in AllPaths(nodes, resolve) {
      var n :| n in nodes && PathOf(n, resolve) == Some(p);
      var k :| 0 <= k < |nodes| && nodes[k] == n;
    }
    if k :| 0 <= k < |nodes| && nodes[k].Node? && nodes[k].source in resolve && resolve[nodes[k].source] == p {
      assert nodes[k] in nodes && PathOf(nodes[k], resolve) == Some(p);
    }
  }

  /** A file gets in exactly when fewer files than the cap were named before its first node. */
  lemma {:induction false} AdmittedMeans(nodes: seq<RawNode>, resolve: Paths, cap: nat, p: string)
    ensures p in Admitted(nodes, resolve, cap)
            <==> exists k :: 0 <= k < |nodes| && PathOf(nodes[k], resolve) == Some(p) && |AllPaths(nodes[..k], resolve)| < cap
  {
    if nodes != [] {
      var m := |nodes| - 1;
      AdmittedMeans(Front(nodes), resolve, cap, p);
      AdmittedBound(Front(nodes), resolve, cap);
      assert forall k :: 0 <= k < m ==> Front(nodes)[..k] == nodes[..k];
      assert nodes[..m] == Front(nodes);
      SubsetSize(Admitted(Front(nodes), resolve, cap), AllPaths(Front(nodes), resolve));
    }
  }

  /** A file's symbols are the positions of its nodes, and its communities are theirs. */
  lemma {:induction false} SymbolsMean(nodes: seq<RawNode>, resolve: Paths, p: string)
    ensures SymbolsOf(nodes, resolve, p)
            == |set k | 0 <= k < |nodes| && nodes[k].Node? && nodes[k].source in resolve && resolve[nodes[k].source] == p|
  {
    if nodes != [] {
      var front, m := Front(nodes), |nodes| - 1;
      SymbolsMean(front, resolve, p);
      assert SymbolsOf(nodes, resolve, p) == SymbolsOf(front, resolve, p) + if Here(nodes[m], resolve, p) then 1 else 0;
      hide SymbolsOf;
      assert (set k | 0 <= k < |nodes| && nodes[k].Node? && nodes[k].source in resolve && resolve[nodes[k].source] == p)
          == (set k | 0 <= k < |front| && front[k].Node? && front[k].source in resolve && resolve[front[k].source] == p)
             + if Here(nodes[m], resolve, p) then {m} else {};
    }
  }

  lemma CommunitiesMean(nodes: seq<RawNode>, resolve: Paths, p: string, c: int)
    ensures c in CommunitiesOf(nodes, resolve, p)
            <==> exists k :: 0 <= k < |nodes| && nodes[k].Node? && nodes[k].source in resolve
                             && resolve[nodes[k].source] == p && nodes[k].community == Some(c)
  {
    if c in CommunitiesOf(nodes, resolve, p) {
      var n :| n in nodes && Here(n, resolve, p) && n.community == Some(c);
      var k :| 0 <= k < |nodes| && nodes[k] == n;
    }
    if k :| 0 <= k < |nodes| && nodes[k].Node? && nodes[k].source in resolve
            && resolve[nodes[k].source] == p && nodes[k].community == Some(c) {
      assert nodes[k] in nodes && Here(nodes[k], resolve, p);
    }
  }

  /** A file is called by the first name of one to 256 characters that a node with a community gives it. */
  lemma {:induction false} NameMeans(nodes: seq<RawNode>, resolve: Paths, p: string)
    ensures var name := NameOf(nodes, resolve, p);
            if name.Some? then
              exists k :: 0 <= k < |nodes| && Here(nodes[k], resolve, p) && nodes[k].community.Some?
                && nodes[k].name == name && 1 <= |name.value| <= 256
                && forall j :: 0 <= j < k && Here(nodes[j], resolve, p) && nodes[j].community.Some? && nodes[j].name.Some?
                               ==> |nodes[j].name.value| == 0 || |nodes[j].name.value| > 256
            else
              forall j :: 0 <= j < |nodes| && Here(nodes[j], resolve, p) && nodes[j].community.Some? && nodes[j].name.Some?
                          ==> |nodes[j].name.value| == 0 || |nodes[j].name.value| > 256
  {
    if nodes != [] {
      NameMeans(Front(nodes), resolve, p);
      var m := |nodes| - 1;
      assert forall j :: 0 <= j < m ==> Front(nodes)[j] == nodes[j];
      var before := NameOf(Front(nodes), resolve, p);
      if before.Some? {
        var k :| 0 <= k < m && Here(Front(nodes)[k], resolve, p) && Front(nodes)[k].community.Some?
                 && Front(nodes)[k].name == before && 1 <= |before.value| <= 256
                 && forall j :: 0 <= j < k && Here(Front(nodes)[j], resolve, p) && Front(nodes)[j].community.Some?
                                && Front(nodes)[j].name.Some?
                                ==> |Front(nodes)[j].name.value| == 0 || |Front(nodes)[j].name.value| > 256;
        assert Here(nodes[k], resolve, p) && nodes[k].name == before;
      } else if Here(nodes[m], resolve, p) && Named(nodes[m]) {
        assert nodes[m].name == NameOf(nodes, resolve, p);
      }
    }
  }

  predicate Counts(nodes: seq<RawNode>, resolve: Paths, cap: nat, id: string, k: nat)
    requires k < |nodes|
  {
    var p := PathOf(nodes[k], resolve);
    nodes[k].Node? && nodes[k].id == id && (p.None? || p.value in Admitted(nodes[..k + 1], resolve, cap))
  }

  lemma {:induction false} FiledAt(nodes: seq<RawNode>, resolve: Paths, cap: nat, id: string) returns (k: int)
    ensures -1 <= k < |nodes|
    ensures FiledAs(nodes, resolve, cap, id) == if k == -1 then None else Some(PathOf(nodes[k], resolve))
    ensures k != -1 ==> Counts(nodes, resolve, cap, id, k)
    ensures forall j :: k < j < |nodes| ==> !Counts(nodes, resolve, cap, id, j)
  {
    if nodes == [] { return -1; }
    var m := |nodes| - 1;
    assert nodes[..m + 1] == nodes;
    if Counts(nodes, resolve, cap, id, m) { return m; }
    k := FiledAt(Front(nodes), resolve, cap, id);
    forall j | 0 <= j < m ensures Counts(nodes, resolve, cap, id, j) == Counts(Front(nodes), resolve, cap, id, j) {
      assert Front(nodes)[..j + 1] == nodes[..j + 1] && Front(nodes)[j] == nodes[j];
    }
  }

  /**
    A node id is filed as the last of its nodes that counts says: under the file that node is in,
    or under none when it names no project file. A node of a file beyond the cap does not count.
   */
  lemma FiledMeans(nodes: seq<RawNode>, resolve: Paths, cap: nat, id: string)
    ensures var f := FiledAs(nodes, resolve, cap, id);
            if f.Some? then
              exists k :: 0 <= k < |nodes| && nodes[k].Node? && nodes[k].id == id
                && f.value == (if nodes[k].source in resolve then Some(resolve[nodes[k].source]) else None)
                && (f.value.Some? ==> f.value.value in Admitted(nodes[..k + 1], resolve, cap))
                && forall j :: k < j < |nodes| && nodes[j].Node? && nodes[j].id == id ==>
                     nodes[j].source in resolve && resolve[nodes[j].source] !in Admitted(nodes[..j + 1], resolve, cap)
            else
              forall j :: 0 <= j < |nodes| && nodes[j].Node? && nodes[j].id == id ==>
                nodes[j].source in resolve && resolve[nodes[j].source] !in Admitted(nodes[..j + 1], resolve, cap)
  {
    var k := FiledAt(nodes, resolve, cap, id);
    hide Admitted, FiledAs;
    forall j | k < j < |nodes| && nodes[j].Node? && nodes[j].id == id
      ensures nodes[j].source in resolve && resolve[nodes[j].source] !in Admitted(nodes[..j + 1], resolve, cap)
    {
      assert !Counts(nodes, resolve, cap, id, j);
    }
  }

  // ---------------------------------------------------------------- the node loop

  type Filed = map<string, Option<string>>

  function Lookup(filed: Filed, id: string): Option<Option<string>> {
    if id in filed then Some(filed[id]) else None
  }

  datatype Read = Read(files: map<string, Entry>, order: seq<string>, filed: Filed, truncated: bool, skipped: nat)

  /** What is known after the nodes have been read; `order` is the insertion order of `files`. */
  ghost predicate Reads(nodes: seq<RawNode>, resolve: Paths, cap: nat, r: Read) {
    && Distinct(r.order) && Elements(r.order) == r.files.Keys == Admitted(nodes, resolve, cap)
    && (forall p :: p in r.files ==> r.files[p] == EntryOf(nodes, resolve, p))
    && (forall id :: Lookup(r.filed, id) == FiledAs(nodes, resolve, cap, id))
    && (r.truncated <==> Admitted(nodes, resolve, cap) != AllPaths(nodes, resolve))
    && r.skipped == SkippedNodes(nodes, resolve, cap)
    && Sum(r.order, r.files) + r.skipped == |nodes|
  }

  lemma AdmittedStep(nodes: seq<RawNode>, n: RawNode, resolve: Paths, cap: nat)
    ensures var before := Admitted(nodes, resolve, cap);
            var p := PathOf(n, resolve);
            Admitted(nodes + [n], resolve, cap) == if p.Some? && |before| < cap then before + {p.value} else before
  {
    assert Front(nodes + [n]) == nodes;
  }

  lemma FiledStep(nodes: seq<RawNode>, n: RawNode, resolve: Paths, cap: nat, id: string)
    ensures var p := PathOf(n, resolve);
            FiledAs(nodes + [n], resolve, cap, id)
            == if n.Node? && n.id == id && (p.None? || p.value in Admitted(nodes + [n], resolve, cap)) then Some(p)
               else FiledAs(nodes, resolve, cap, id)
    ensures var p := PathOf(n, resolve);
            SkippedNodes(nodes + [n], resolve, cap)
            == SkippedNodes(nodes, resolve, cap) + if p.Some? && p.value in Admitted(nodes + [n], resolve, cap) then 0 else 1
  {
    assert Front(nodes + [n]) == nodes;
  }

  /** A node without a project file. */
  lemma SkipNode(nodes: seq<RawNode>, n: RawNode, resolve: Paths, cap: nat, r: Read)
    requires Reads(nodes, resolve, cap, r) && PathOf(n, resolve).None?
    ensures var filed := if n.Node? then r.filed[n.id := None] else r.filed;
            Reads(nodes + [n], resolve, cap, r.(filed := filed, skipped := r.skipped + 1))
  {
    hide Admitted, FiledAs, EntryOf, SkippedNodes, AllPaths, Sum, Elements, Distinct;
    AdmittedStep(nodes, n, resolve, cap);
    PathsSnoc(nodes, n, resolve);
    forall p {
      EntryStep(nodes, n, resolve, p);
    }
    forall id {
      FiledStep(nodes, n, resolve, cap, id);
    }
    FiledStep(nodes, n, resolve, cap, "");
  }

  /** A node of a file that is beyond the cap. */
  lemma CapNode(nodes: seq<RawNode>, n: RawNode, resolve: Paths, cap: nat, r: Read)
    requires Reads(nodes, resolve, cap, r) && PathOf(n, resolve).Some?
    requires PathOf(n, resolve).value !in r.files && |r.files.Keys| >= cap
    ensures Reads(nodes + [n], resolve, cap, r.(truncated := true, skipped := r.skipped + 1))
  {
    hide Admitted, FiledAs, EntryOf, SkippedNodes, AllPaths, Sum, Elements, Distinct;
    AdmittedStep(nodes, n, resolve, cap);
    PathsSnoc(nodes, n, resolve);
    forall p {
      EntryStep(nodes, n, resolve, p);
    }
    forall id {
      FiledStep(nodes, n, resolve, cap, id);
    }
    FiledStep(nodes, n, resolve, cap, "");
  }

  lemma DistinctSnoc(order: seq<string>, p: string)
    requires Distinct(order) && p !in order
    ensures Distinct(order + [p])
  {
  }

  /** The files and their order after one more node of `p`. */
  lemma FileAdded(nodes: seq<RawNode>, n: RawNode, resolve: Paths, cap: nat, r: Read, p: string, e: Entry)
    requires Reads(nodes, resolve, cap, r) && PathOf(n, resolve) == Some(p)
    requires p in r.files || |r.files.Keys| < cap
    requires e == EntryOf(nodes + [n], resolve, p)
    ensures Admitted(nodes + [n], resolve, cap) == r.files.Keys + {p}
    ensures AllPaths(nodes + [n], resolve) == AllPaths(nodes, resolve) + {p}
    ensures r.truncated <==> Admitted(nodes + [n], resolve, cap) != AllPaths(nodes + [n], resolve)
    ensures forall q :: q in r.files[p := e] ==> r.files[p := e][q] == EntryOf(nodes + [n], resolve, q)
  {
    hide EntryOf, SkippedNodes, Sum, Admitted, AllPaths, FiledAs, Elements, Distinct;
    AdmittedStep(nodes, n, resolve, cap);
    AdmittedBound(nodes, resolve, cap);
    PathsSnoc(nodes, n, resolve);
    forall q {
      EntryStep(nodes, n, resolve, q);
    }
    assert p in r.files ==> r.files.Keys + {p} == r.files.Keys;
    assert p in AllPaths(nodes, resolve) ==> AllPaths(nodes, resolve) + {p} == AllPaths(nodes, resolve);
  }

  lemma OrderAdded(order: seq<string>, keys: set<string>, p: string)
    requires Distinct(order) && Elements(order) == keys
    ensures var order' := if p in keys then order else order + [p];
            Distinct(order') && Elements(order') == keys + {p}
  {
    ElementsSnoc(order, p);
    if p !in keys {
      assert p !in Elements(order);
      DistinctSnoc(order, p);
    } else {
      assert keys + {p} == keys;
    }
  }

  /** A node of a file that is already in, or still gets in. */
  lemma FileNode(nodes: seq<RawNode>, n: RawNode, resolve: Paths, cap: nat, r: Read, p: string, e: Entry)
    requires Reads(nodes, resolve, cap, r) && PathOf(n, resolve) == Some(p)
    requires p in r.files || |r.files.Keys| < cap
    requires e == EntryOf(nodes + [n], resolve, p)
    ensures Reads(nodes + [n], resolve, cap,
                  r.(files := r.files[p := e], order := if p in r.files then r.order else r.order + [p],
                     filed := r.filed[n.id := Some(p)]))
  {
    hide Admitted, FiledAs, EntryOf, SkippedNodes, AllPaths, Sum, Elements, Distinct;
    FileAdded(nodes, n, resolve, cap, r, p, e);
    OrderAdded(r.order, r.files.Keys, p);
    forall id {
      FiledStep(nodes, n, resolve, cap, id);
    }
    FileSums(nodes, n, resolve, cap, r, p, e);
    FiledStep(nodes, n, resolve, cap, "");
    assert r.files[p := e].Keys == r.files.Keys + {p};
  }

  lemma FileSums(nodes: seq<RawNode>, n: RawNode, resolve: Paths, cap: nat, r: Read, p: string, e: Entry)
    requires Reads(nodes, resolve, cap, r) && PathOf(n, resolve) == Some(p)
    requires p in r.files || |r.files.Keys| < cap
    requires e == EntryOf(nodes + [n], resolve, p)
    ensures Sum(if p in r.files then r.order else r.order + [p], r.files[p := e]) == Sum(r.order, r.files) + 1
  {
    hide Admitted, FiledAs, EntryOf, SkippedNodes, AllPaths, Sum;
    EntryStep(nodes, n, resolve, p);
    assert p in r.order <==> p in Elements(r.order);
    if p in r.files {
      SumOneMore(r.order, r.files, p, e);
    } else {
      AdmittedBound(nodes, resolve, cap);
      NothingElsewhere(nodes, resolve, p);
      SumNew(r.order, r.files, p, e);
    }
  }

  lemma EntryNow(nodes: seq<RawNode>, n: RawNode, resolve: Paths, cap: nat, r: Read, p: string)
    requires Reads(nodes, resolve, cap, r) && PathOf(n, resolve) == Some(p)
    requires p in r.files || |r.files.Keys| < cap
    ensures Grown(if p in r.files then r.files[p] else Entry(0, {}, None), n) == EntryOf(nodes + [n], resolve, p)
  {
    hide Admitted, FiledAs, EntryOf, SkippedNodes, AllPaths, Sum;
    EntryStep(nodes, n, resolve, p);
    if p !in r.files {
      AdmittedBound(nodes, resolve, cap);
      NothingElsewhere(nodes, resolve, p);
    }
  }

  method GrowEntry(was: Entry, n: RawNode) returns (entry: Entry)
    requires n.Node?
    ensures entry == Grown(was, n)
  {
    entry := was.(symbols := was.symbols + 1);
    if n.community.Some? {
      entry := entry.(communities := entry.communities + {n.community.value});
      if entry.name.None? && Named(n) {
        entry := entry.(name := n.name);
      }
    }
  }

  /** The body of the node loop. */
  method ReadNode(ghost before: seq<RawNode>, n: RawNode, resolve: Paths, cap: nat, was: Read) returns (r: Read)
    requires Reads(before, resolve, cap, was)
    ensures Reads(before + [n], resolve, cap, r)
  {
    hide Reads, EntryOf, Grown;
    r := was;
    if n.BadNode? {
      SkipNode(before, n, resolve, cap, r);
      r := r.(skipped := r.skipped + 1);
      return;
    }
    if n.source !in resolve {
      SkipNode(before, n, resolve, cap, r);
      r := r.(filed := r.filed[n.id := None], skipped := r.skipped + 1);
      return;
    }
    var p := resolve[n.source];
    if p !in r.files {
      if |r.files.Keys| >= cap {
        CapNode(before, n, resolve, cap, r);
        r := r.(truncated := true, skipped := r.skipped + 1);
        return;
      }
    }
    EntryNow(before, n, resolve, cap, r, p);
    var entry := GrowEntry(if p in r.files then r.files[p] else Entry(0, {}, None), n);
    FileNode(before, n, resolve, cap, r, p, entry);
    r := r.(files := r.files[p := entry], order := if p in r.files then r.order else r.order + [p],
            filed := r.filed[n.id := Some(p)]);
  }

  method ReadNodes(nodes: seq<RawNode>, resolve: Paths, cap: nat) returns (r: Read)
    ensures Reads(nodes, resolve, cap, r)
  {
    r := Read(map[], [], map[], false, 0);
    assert Reads(nodes[..0], resolve, cap, r);
    hide Reads;
    for i := 0 to |nodes|
      invariant Reads(nodes[..i], resolve, cap, r)
    {
      assert nodes[..i + 1] == nodes[..i] + [nodes[i]];
      r := ReadNode(nodes[..i], nodes[i], resolve, cap, r);
    }
    assert nodes[..|nodes|] == nodes;
  }

  // ---------------------------------------------------------------- the links

  datatype Verdict =
    | Skipped
    | OtherRelation
    | External
    | SelfLink
    | Accepted(from: string, to: string, made: Import)

  predicate IsImport(relation: string) {
    relation == "imports" || relation == "imports_from" || relation == "re_exports" || relation == "dynamic_import"
  }

  function ConfidenceOf(text: Option<string>): Option<Confidence> {
    if text == Some("EXTRACTED") then Some(Medium) else if text == Some("INFERRED") then Some(Low) else None
  }

  /** What becomes of one link. */
  function Judge(l: RawLink, filed: Filed): Verdict {
    if l.BadLink? then Skipped
    else if !IsImport(l.relation) then OtherRelation
    else
      var from, to := Lookup(filed, l.from), Lookup(filed, l.to);
      if from.None? || to.None? then Skipped
      else if from.value.None? || to.value.None? then External
      else if from == to then SelfLink
      else
        var c := ConfidenceOf(l.confidence);
        if c.None? then Skipped else Accepted(from.value.value, to.value.value, Import(c.value, l.line))
  }

  datatype Pair = Pair(from: string, to: string)

  type Imports = map<Pair, Import>

  datatype Counters = Counters(skipped: nat, other: nat, external: nat, self: nat, accepted: nat)

  function Counted(c: Counters, v: Verdict): Counters {
    match v
    case Skipped => c.(skipped := c.skipped + 1)
    case OtherRelation => c.(other := c.other + 1)
    case External => c.(external := c.external + 1)
    case SelfLink => c.(self := c.self + 1)
    case Accepted(_, _, _) => c.(accepted := c.accepted + 1)
  }

  function CountAll(links: seq<RawLink>, filed: Filed): Counters {
    if links == [] then Counters(0, 0, 0, 0, 0) else Counted(CountAll(Front(links), filed), Judge(Last(links), filed))
  }

  /** Every link entry is accounted for exactly once. */
  lemma {:induction false} LinksConserved(links: seq<RawLink>, filed: Filed)
    ensures var c := CountAll(links, filed); c.skipped + c.other + c.external + c.self + c.accepted == |links|
  {
    if links != [] {
      LinksConserved(Front(links), filed);
    }
  }

  /** The link is an accepted import of this pair, with this confidence. */
  predicate Proves(l: RawLink, filed: Filed, pair: Pair, c: Confidence) {
    var v := Judge(l, filed);
    v.Accepted? && Pair(v.from, v.to) == pair && v.made.confidence == c
  }

  /** The first link of that pair and confidence; |links| if there is none. */
  function FirstOf(links: seq<RawLink>, filed: Filed, pair: Pair, c: Confidence): (k: nat)
    ensures k <= |links|
    ensures k < |links| ==> Proves(links[k], filed, pair, c)
    ensures forall j :: 0 <= j < k ==> !Proves(links[j], filed, pair, c)
  {
    if links == [] then 0
    else
      var k := FirstOf(Front(links), filed, pair, c);
      if k < |links| - 1 || Proves(Last(links), filed, pair, c) then k else |links|
  }

  /** The strongest accepted confidence, with the line of the first link that has it. */
  function Strongest(links: seq<RawLink>, filed: Filed, pair: Pair): Option<Import> {
    var m, l := FirstOf(links, filed, pair, Medium), FirstOf(links, filed, pair, Low);
    if m < |links| then Some(Import(Medium, links[m].line))
    else if l < |links| then Some(Import(Low, links[l].line))
    else None
  }

  /** What becomes of a link, from its own text and from where its two ends were filed. */
  lemma JudgeMeans(l: RawLink, filed: Filed)
    ensures Judge(l, filed).OtherRelation?
            <==> l.Link? && l.relation != "imports" && l.relation != "imports_from" && l.relation != "re_exports"
                 && l.relation != "dynamic_import"
    ensures Judge(l, filed).External?
            <==> l.Link? && !Judge(l, filed).OtherRelation? && l.from in filed && l.to in filed
                 && (filed[l.from].None? || filed[l.to].None?)
    ensures Judge(l, filed).SelfLink?
            <==> l.Link? && !Judge(l, filed).OtherRelation? && l.from in filed && l.to in filed
                 && filed[l.from].Some? && filed[l.from] == filed[l.to]
    ensures Judge(l, filed).Accepted?
            <==> l.Link? && !Judge(l, filed).OtherRelation? && l.from in filed && l.to in filed
                 && filed[l.from].Some? && filed[l.to].Some? && filed[l.from] != filed[l.to]
                 && (l.confidence == Some("EXTRACTED") || l.confidence == Some("INFERRED"))
    ensures Judge(l, filed).Skipped?
            <==> l.BadLink?
                 || (!Judge(l, filed).OtherRelation?
                     && (l.from !in filed || l.to !in filed
                         || (filed[l.from].Some? && filed[l.to].Some? && filed[l.from] != filed[l.to]
                             && l.confidence != Some("EXTRACTED") && l.confidence != Some("INFERRED"))))
    ensures Judge(l, filed).Accepted?
            ==> Judge(l, filed) == Accepted(filed[l.from].value, filed[l.to].value,
                                            Import(if l.confidence == Some("EXTRACTED") then Medium else Low, l.line))
  {
  }

  /** Each counter is the number of links that came to that. */
  lemma CountersMean(links: seq<RawLink>, filed: Filed)
    ensures var c := CountAll(links, filed);
            && c.skipped == |set k | 0 <= k < |links| && Judge(links[k], filed).Skipped?|
            && c.other == |set k | 0 <= k < |links| && Judge(links[k], filed).OtherRelation?|
            && c.external == |set k | 0 <= k < |links| && Judge(links[k], filed).External?|
            && c.self == |set k | 0 <= k < |links| && Judge(links[k], filed).SelfLink?|
            && c.accepted == |set k | 0 <= k < |links| && Judge(links[k], filed).Accepted?|
  {
    hide Judge, CountAll;
    CounterMeans(links, filed, (v: Verdict) => v.Skipped?, (c: Counters) => c.skipped);
    CounterMeans(links, filed, (v: Verdict) => v.OtherRelation?, (c: Counters) => c.other);
    CounterMeans(links, filed, (v: Verdict) => v.External?, (c: Counters) => c.external);
    CounterMeans(links, filed, (v: Verdict) => v.SelfLink?, (c: Counters) => c.self);
    CounterMeans(links, filed, (v: Verdict) => v.Accepted?, (c: Counters) => c.accepted);
    assert (set k | 0 <= k < |links| && ((v: Verdict) => v.Skipped?)(Judge(links[k], filed)))
        == (set k | 0 <= k < |links| && Judge(links[k], filed).Skipped?);
    assert (set k | 0 <= k < |links| && ((v: Verdict) => v.OtherRelation?)(Judge(links[k], filed)))
        == (set k | 0 <= k < |links| && Judge(links[k], filed).OtherRelation?);
    assert (set k | 0 <= k < |links| && ((v: Verdict) => v.External?)(Judge(links[k], filed)))
        == (set k | 0 <= k < |links| && Judge(links[k], filed).External?);
    assert (set k | 0 <= k < |links| && ((v: Verdict) => v.SelfLink?)(Judge(links[k], filed)))
        == (set k | 0 <= k < |links| && Judge(links[k], filed).SelfLink?);
    assert (set k | 0 <= k < |links| && ((v: Verdict) => v.Accepted?)(Judge(links[k], filed)))
        == (set k | 0 <= k < |links| && Judge(links[k], filed).Accepted?);
  }

  lemma {:induction false} CounterMeans(links: seq<RawLink>, filed: Filed, came: Verdict -> bool, counter: Counters -> nat)
    requires counter(Counters(0, 0, 0, 0, 0)) == 0
    requires forall c, v :: counter(Counted(c, v)) == counter(c) + if came(v) then 1 else 0
    ensures counter(CountAll(links, filed)) == |set k | 0 <= k < |links| && came(Judge(links[k], filed))|
  {
    hide Judge;
    if links != [] {
      var front, m := Front(links), |links| - 1;
      CounterMeans(front, filed, came, counter);
      assert (set k | 0 <= k < |links| && came(Judge(links[k], filed)))
          == (set k | 0 <= k < |front| && came(Judge(front[k], filed))) + if came(Judge(links[m], filed)) then {m} else {};
    }
  }

  /**
    The import of a pair: medium with the line of its first EXTRACTED link if it has one, low with
    the line of its first INFERRED link if it only has those, and none without an accepted link.
   */
  lemma StrongestMeans(links: seq<RawLink>, filed: Filed, from: string, to: string)
    ensures var made := Strongest(links, filed, Pair(from, to));
            && (made.Some?
                <==> exists k :: 0 <= k < |links| && Judge(links[k], filed).Accepted?
                                 && filed[links[k].from] == Some(from) && filed[links[k].to] == Some(to))
            && (made.Some? && made.value.confidence == Medium
                <==> exists k :: 0 <= k < |links| && Judge(links[k], filed).Accepted? && filed[links[k].from] == Some(from)
                                 && filed[links[k].to] == Some(to) && links[k].confidence == Some("EXTRACTED"))
            && (made.Some? ==>
                  exists k :: 0 <= k < |links| && Judge(links[k], filed).Accepted? && filed[links[k].from] == Some(from)
                    && filed[links[k].to] == Some(to) && links[k].line == made.value.line
                    && links[k].confidence == Some(if made.value.confidence == Medium then "EXTRACTED" else "INFERRED")
                    && forall j :: (0 <= j < k && Judge(links[j], filed).Accepted? && filed[links[j].from] == Some(from)
                                    && filed[links[j].to] == Some(to))
                                   ==> links[j].confidence != links[k].confidence)
  {
    forall k | 0 <= k < |links| {
      JudgeMeans(links[k], filed);
    }
    hide Judge;
    var pair := Pair(from, to);
    var m, l := FirstOf(links, filed, pair, Medium), FirstOf(links, filed, pair, Low);
    assert m < |links| ==> Proves(links[m], filed, pair, Medium);
    assert l < |links| ==> Proves(links[l], filed, pair, Low);
  }

  function GetImport(imports: Imports, pair: Pair): Option<Import> {
    if pair in imports then Some(imports[pair]) else None
  }

  ghost predicate LinksRead(links: seq<RawLink>, filed: Filed, imports: Imports, c: Counters) {
    && c == CountAll(links, filed)
    && forall pair :: GetImport(imports, pair) == Strongest(links, filed, pair)
  }

  lemma FirstStep(links: seq<RawLink>, l: RawLink, filed: Filed, pair: Pair, c: Confidence)
    ensures var k := FirstOf(links, filed, pair, c);
            FirstOf(links + [l], filed, pair, c)
            == if k < |links| || Proves(l, filed, pair, c) then k else |links| + 1
  {
    assert Front(links + [l]) == links;
  }

  /** One more link, seen from one pair. */
  lemma StrongestStep(links: seq<RawLink>, l: RawLink, filed: Filed, pair: Pair)
    ensures var was, v := Strongest(links, filed, pair), Judge(l, filed);
            Strongest(links + [l], filed, pair)
            == if v.Accepted? && Pair(v.from, v.to) == pair
                  && (was.None? || (was.value.confidence.Low? && v.made.confidence.Medium?))
               then Some(v.made) else was
  {
    FirstStep(links, l, filed, pair, Medium);
    FirstStep(links, l, filed, pair, Low);
    assert (links + [l])[|links|] == l;
    JudgedLine(l, filed);
  }

  lemma JudgedLine(l: RawLink, filed: Filed)
    ensures Judge(l, filed).Accepted? ==> l.Link? && Judge(l, filed).made.line == l.line
  {
  }

  lemma CountStep(links: seq<RawLink>, l: RawLink, filed: Filed)
    ensures CountAll(links + [l], filed) == Counted(CountAll(links, filed), Judge(l, filed))
  {
    assert Front(links + [l]) == links;
  }

  lemma LinkStep(links: seq<RawLink>, l: RawLink, filed: Filed, imports: Imports, c: Counters)
    requires LinksRead(links, filed, imports, c)
    ensures var v := Judge(l, filed);
            var imports' :=
              if v.Accepted?
                 && (Pair(v.from, v.to) !in imports
                     || (imports[Pair(v.from, v.to)].confidence.Low? && v.made.confidence.Medium?))
              then imports[Pair(v.from, v.to) := v.made] else imports;
            LinksRead(links + [l], filed, imports', Counted(c, v))
  {
    hide Judge, Strongest, CountAll;
    CountStep(links, l, filed);
    forall pair {
      StrongestStep(links, l, filed, pair);
    }
  }

  /** The body of the link loop. Self links and accepted ones are not counted by the source. */
  method ReadLink(ghost before: seq<RawLink>, l: RawLink, filed: Filed, was: Imports, c: Counters)
    returns (imports: Imports, c': Counters)
    requires LinksRead(before, filed, was, c)
    ensures LinksRead(before + [l], filed, imports, c')
  {
    hide LinksRead;
    LinkStep(before, l, filed, was, c);
    imports, c' := was, c;
    if l.BadLink? {
      return imports, c.(skipped := c.skipped + 1);
    }
    if !IsImport(l.relation) {
      return imports, c.(other := c.other + 1);
    }
    var from, to := Lookup(filed, l.from), Lookup(filed, l.to);
    if from.None? || to.None? {
      return imports, c.(skipped := c.skipped + 1);
    }
    if from.value.None? || to.value.None? {
      return imports, c.(external := c.external + 1);
    }
    if from.value == to.value {
      return imports, c.(self := c.self + 1);
    }
    var confidence := ConfidenceOf(l.confidence);
    if confidence.None? {
      return imports, c.(skipped := c.skipped + 1);
    }
    c' := c.(accepted := c.accepted + 1);
    var key := Pair(from.value.value, to.value.value);
    if key !in imports || (imports[key].confidence.Low? && confidence.value.Medium?) {
      imports := imports[key := Import(confidence.value, l.line)];
    }
  }

  method ReadLinks(links: seq<RawLink>, filed: Filed) returns (imports: Imports, c: Counters)
    ensures LinksRead(links, filed, imports, c)
  {
    imports, c := map[], Counters(0, 0, 0, 0, 0);
    assert LinksRead(links[..0], filed, imports, c);
    hide LinksRead;
    for i := 0 to |links|
      invariant LinksRead(links[..i], filed, imports, c)
    {
      assert links[..i + 1] == links[..i] + [links[i]];
      imports, c := ReadLink(links[..i], links[i], filed, imports, c);
    }
    assert links[..|links|] == links;
  }

  // ---------------------------------------------------------------- the observation

  datatype File = File(path: string, symbols: nat, communities: nat, community: Option<string>)

  datatype Observation = Observation(
    files: seq<File>, imports: Imports, truncated: bool,
    skippedNodes: nat, skippedLinks: nat, externalImports: nat, otherRelations: nat)

  /** The community is named only when the file's nodes name a single one. */
  function Report(p: string, e: Entry): File {
    File(p, e.symbols, |e.communities|, if |e.communities| == 1 then e.name else None)
  }

  function Symbols(files: seq<File>): nat {
    if files == [] then 0 else Symbols(Front(files)) + Last(files).symbols
  }

  /** Both ends of every import are files of the observation, and they differ. */
  ghost predicate Between(files: seq<File>, pair: Pair) {
    && (exists f :: f in files && f.path == pair.from)
    && (exists f :: f in files && f.path == pair.to)
    && pair.from != pair.to
  }

  method Observe(nodes: seq<RawNode>, links: seq<RawLink>, resolve: Paths, cap: nat)
    returns (o: Observation, ghost selfLinks: nat, ghost accepted: nat, ghost filed: Filed)
    ensures o.skippedNodes + Symbols(o.files) == |nodes|
    ensures o.skippedLinks + o.otherRelations + o.externalImports + selfLinks + accepted == |links|
    ensures o.truncated <==> |AllPaths(nodes, resolve)| > cap
    ensures |o.files| <= cap && forall i, j :: 0 <= i < j < |o.files| ==> o.files[i].path != o.files[j].path
    ensures forall f :: f in o.files ==>
              && f.symbols == SymbolsOf(nodes, resolve, f.path)
              && f.communities == |CommunitiesOf(nodes, resolve, f.path)|
              && f.community == if |CommunitiesOf(nodes, resolve, f.path)| == 1 then NameOf(nodes, resolve, f.path) else None
    ensures forall p :: p in Admitted(nodes, resolve, cap) <==> exists f :: f in o.files && f.path == p
    ensures forall pair :: pair in o.imports ==> Between(o.files, pair)
    ensures forall id :: (if id in filed then Some(filed[id]) else None) == FiledAs(nodes, resolve, cap, id)
    ensures CountAll(links, filed) == Counters(o.skippedLinks, o.otherRelations, o.externalImports, selfLinks, accepted)
    ensures forall pair :: (if pair in o.imports then Some(o.imports[pair]) else None) == Strongest(links, filed, pair)
  {
    hide *;
    var r := ReadNodes(nodes, resolve, cap);
    var imports, c := ReadLinks(links, r.filed);
    OrderNamesFiles(nodes, resolve, cap, r);
    var files := ReportAll(r);
    LinksConserved(links, r.filed);
    ReadFacts(nodes, resolve, cap, r, files);
    ImportsBetween(nodes, resolve, cap, r, links, imports, c, files);
    LinksKnown(links, r.filed, imports, c);
    o := Observation(files, imports, r.truncated, r.skipped, c.skipped, c.external, c.other);
    selfLinks, accepted, filed := c.self, c.accepted, r.filed;
  }

  /**
    A community is reported exactly when the file's nodes that name one name the same one, and
    one of them gives it an acceptable name; nodes without a community do not stand in the way.
   */
  lemma {:induction false} NameExactlyWhen(nodes: seq<RawNode>, resolve: Paths, p: string)
    ensures NameOf(nodes, resolve, p).Some? <==> exists n :: n in nodes && Here(n, resolve, p) && Named(n)
  {
    if nodes != [] {
      NameExactlyWhen(Front(nodes), resolve, p);
      assert nodes == Front(nodes) + [Last(nodes)];
      assert Last(nodes) in nodes;
      forall n | n in nodes ensures n in Front(nodes) || n == Last(nodes) {
      }
    }
  }

  lemma CommunityExactlyWhen(nodes: seq<RawNode>, resolve: Paths, p: string)
    ensures Report(p, EntryOf(nodes, resolve, p)).community.Some?
            <==> |CommunitiesOf(nodes, resolve, p)| == 1 && exists n :: n in nodes && Here(n, resolve, p) && Named(n)
  {
    NameExactlyWhen(nodes, resolve, p);
  }

  lemma OrderNamesFiles(nodes: seq<RawNode>, resolve: Paths, cap: nat, r: Read)
    requires Reads(nodes, resolve, cap, r)
    ensures Elements(r.order) <= r.files.Keys
  {
  }

  lemma LinksKnown(links: seq<RawLink>, filed: Filed, imports: Imports, c: Counters)
    requires LinksRead(links, filed, imports, c)
    ensures c == CountAll(links, filed)
    ensures forall pair :: (if pair in imports then Some(imports[pair]) else None) == Strongest(links, filed, pair)
  {
    forall pair: Pair ensures (if pair in imports then Some(imports[pair]) else None) == Strongest(links, filed, pair) {
      assert GetImport(imports, pair) == Strongest(links, filed, pair);
    }
  }

  ghost predicate Reported(r: Read, files: seq<File>) {
    && |files| == |r.order|
    && forall i :: 0 <= i < |files| ==> r.order[i] in r.files && files[i] == Report(r.order[i], r.files[r.order[i]])
  }

  method ReportAll(r: Read) returns (files: seq<File>)
    requires Elements(r.order) <= r.files.Keys
    ensures Reported(r, files)
  {
    files := [];
    for i := 0 to |r.order|
      invariant |files| == i
      invariant forall k :: 0 <= k < i ==> r.order[k] in r.files && files[k] == Report(r.order[k], r.files[r.order[k]])
    {
      assert r.order[i] in Elements(r.order);
      files := files + [Report(r.order[i], r.files[r.order[i]])];
    }
  }

  lemma {:induction false} SymbolsAreSum(r: Read, files: seq<File>, order: seq<string>)
    requires |files| == |order|
    requires forall i :: 0 <= i < |files| ==> order[i] in r.files && files[i] == Report(order[i], r.files[order[i]])
    ensures Symbols(files) == Sum(order, r.files)
  {
    if files != [] {
      SymbolsAreSum(r, Front(files), Front(order));
    }
  }

  lemma ReadFacts(nodes: seq<RawNode>, resolve: Paths, cap: nat, r: Read, files: seq<File>)
    requires Reads(nodes, resolve, cap, r) && Reported(r, files)
    ensures r.skipped + Symbols(files) == |nodes|
    ensures r.truncated <==> |AllPaths(nodes, resolve)| > cap
    ensures |files| <= cap && forall i, j :: 0 <= i < j < |files| ==> files[i].path != files[j].path
    ensures forall f :: f in files ==>
              && f.symbols == SymbolsOf(nodes, resolve, f.path)
              && f.communities == |CommunitiesOf(nodes, resolve, f.path)|
              && f.community == if |CommunitiesOf(nodes, resolve, f.path)| == 1 then NameOf(nodes, resolve, f.path) else None
    ensures forall p :: p in Admitted(nodes, resolve, cap) <==> exists f :: f in files && f.path == p
    ensures forall id :: (if id in r.filed then Some(r.filed[id]) else None) == FiledAs(nodes, resolve, cap, id)
  {
    PathsReported(nodes, resolve, cap, r, files);
    hide Sum, Symbols, SymbolsOf, CommunitiesOf, NameOf, AllPaths, Admitted, FiledAs, SkippedNodes, Elements;
    SymbolsAreSum(r, files, r.order);
    TruncatedExactlyWhen(nodes, resolve, cap);
    AdmittedBound(nodes, resolve, cap);
    UniqueCount(r.order);
  }

  lemma PathsReported(nodes: seq<RawNode>, resolve: Paths, cap: nat, r: Read, files: seq<File>)
    requires Reads(nodes, resolve, cap, r) && Reported(r, files)
    ensures forall p :: p in Admitted(nodes, resolve, cap) <==> exists f :: f in files && f.path == p
  {
    hide Sum, EntryOf, AllPaths, Admitted, FiledAs, SkippedNodes;
    forall p | p in Elements(r.order) ensures exists f :: f in files && f.path == p {
      Reaches(r, files, p);
    }
  }

  lemma Reaches(r: Read, files: seq<File>, p: string)
    requires Reported(r, files) && p in Elements(r.order)
    ensures exists f :: f in files && f.path == p
  {
    var i :| 0 <= i < |r.order| && r.order[i] == p;
    assert files[i] in files && files[i].path == p;
  }

  lemma ImportsBetween(nodes: seq<RawNode>, resolve: Paths, cap: nat, r: Read, links: seq<RawLink>,
                       imports: Imports, c: Counters, files: seq<File>)
    requires Reads(nodes, resolve, cap, r) && Reported(r, files) && LinksRead(links, r.filed, imports, c)
    ensures forall pair :: pair in imports ==> Between(files, pair)
  {
    hide Reported, Admitted, FiledAs, EntryOf, AllPaths, SkippedNodes, Sum, CountAll, Elements, Distinct;
    forall pair | pair in imports ensures Between(files, pair) {
      assert GetImport(imports, pair) == Strongest(links, r.filed, pair);
      var l := ProofOf(links, r.filed, pair);
      assert Lookup(r.filed, l.from) == FiledAs(nodes, resolve, cap, l.from);
      assert Lookup(r.filed, l.to) == FiledAs(nodes, resolve, cap, l.to);
      FiledIsAdmitted(nodes, resolve, cap, l.from);
      FiledIsAdmitted(nodes, resolve, cap, l.to);
      Reaches(r, files, pair.from);
      Reaches(r, files, pair.to);
    }
  }

  lemma ProofOf(links: seq<RawLink>, filed: Filed, pair: Pair) returns (l: RawLink)
    requires Strongest(links, filed, pair).Some?
    ensures l.Link? && Lookup(filed, l.from) == Some(Some(pair.from)) && Lookup(filed, l.to) == Some(Some(pair.to))
    ensures pair.from != pair.to
  {
    var m, k := FirstOf(links, filed, pair, Medium), FirstOf(links, filed, pair, Low);
    l := links[if m < |links| then m else k];
  }
}

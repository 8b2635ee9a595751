/**
  `projectKnowledgeGraph`: the bounded backbone of a graphify document. Ids are numbered in
  the order in which they collate, and distinct.
 */
module KnowledgeGraph {
  import opened Prelude

  /** `text` is the id itself, `name` the community name as read. */
  datatype Node = Node(id: nat, text: string, file: string, community: Option<int>, name: Option<string>)

  datatype Link = Link(source: nat, target: nat, relation: string)

  type Degrees = map<nat, nat>

  function Ids(nodes: seq<Node>): set<nat> {
    set n | n in nodes :: n.id
  }

  predicate DistinctIds(nodes: seq<Node>) {
    forall i, j :: 0 <= i < j < |nodes| ==> nodes[i].id != nodes[j].id
  }

  // ---------------------------------------------------------------- degrees

  function Hits(l: Link, id: nat): nat {
    (if l.source == id then 1 else 0) + (if l.target == id then 1 else 0)
  }

  /** How often links end at `id`. */
  function DegreeOf(links: seq<Link>, id: nat): nat {
    if links == [] then 0 else DegreeOf(links[..|links| - 1], id) + Hits(links[|links| - 1], id)
  }

  /** The positions below `n` at which links leave `id`, and those at which they arrive. */
  function Leaving(links: seq<Link>, id: nat): set<nat> {
    set k: nat | k < |links| && links[k].source == id
  }

  function Arriving(links: seq<Link>, id: nat): set<nat> {
    set k: nat | k < |links| && links[k].target == id
  }

  lemma OneLeaving(links: seq<Link>, l: Link, id: nat)
    ensures |Leaving(links + [l], id)| == |Leaving(links, id)| + (if l.source == id then 1 else 0)
  {
    var n, all, was := |links|, links + [l], Leaving(links, id);
    var one: set<nat> := if l.source == id then {n} else {};
    forall k: nat ensures k in Leaving(all, id) <==> k in was + one {
      assert k < n ==> all[k] == links[k];
    }
    assert Leaving(all, id) == was + one && was !! one;
  }

  lemma OneArriving(links: seq<Link>, l: Link, id: nat)
    ensures |Arriving(links + [l], id)| == |Arriving(links, id)| + (if l.target == id then 1 else 0)
  {
    var n, all, was := |links|, links + [l], Arriving(links, id);
    var one: set<nat> := if l.target == id then {n} else {};
    forall k: nat ensures k in Arriving(all, id) <==> k in was + one {
      assert k < n ==> all[k] == links[k];
    }
    assert Arriving(all, id) == was + one && was !! one;
  }

  lemma {:induction false} DegreeIsCount(links: seq<Link>, id: nat)
    ensures DegreeOf(links, id) == |Leaving(links, id)| + |Arriving(links, id)|
  {
    if links != [] {
      var n := |links| - 1;
      DegreeIsCount(links[..n], id);
      OneLeaving(links[..n], links[n], id);
      OneArriving(links[..n], links[n], id);
      assert links == links[..n] + [links[n]];
    }
  }

  /** The degree is the number of link ends at the node. */
  lemma DegreeCounts(links: seq<Link>, id: nat)
    ensures DegreeOf(links, id)
            == |set k: nat | k < |links| && links[k].source == id| + |set k: nat | k < |links| && links[k].target == id|
  {
    DegreeIsCount(links, id);
    assert Leaving(links, id) == set k: nat | k < |links| && links[k].source == id;
    assert Arriving(links, id) == set k: nat | k < |links| && links[k].target == id;
  }

  function KnownEnds(l: Link, ids: set<nat>): nat {
    (if l.source in ids then 1 else 0) + (if l.target in ids then 1 else 0)
  }

  function KnownEndpoints(links: seq<Link>, ids: set<nat>): nat {
    if links == [] then 0 else KnownEndpoints(links[..|links| - 1], ids) + KnownEnds(links[|links| - 1], ids)
  }

  function SumOfDegrees(nodes: seq<Node>, d: Degrees): nat {
    if nodes == [] then 0 else SumOfDegrees(nodes[..|nodes| - 1], d) + Degree(d, nodes[|nodes| - 1].id)
  }

  function Degree(d: Degrees, id: nat): nat {
    if id in d then d[id] else 0
  }

  ghost predicate Counts(d: Degrees, ids: set<nat>, links: seq<Link>) {
    d.Keys == ids && forall id :: id in ids ==> d[id] == DegreeOf(links, id)
  }

  lemma OneLink(links: seq<Link>, l: Link, id: nat)
    ensures DegreeOf(links + [l], id) == DegreeOf(links, id) + Hits(l, id)
  {
    assert (links + [l])[..|links|] == links;
  }

  method CountDegrees(nodes: seq<Node>, links: seq<Link>) returns (d: Degrees)
    ensures Counts(d, Ids(nodes), links)
  {
    d := map[];
    var ids := Ids(nodes);
    for i := 0 to |nodes|
      invariant d.Keys == Ids(nodes[..i]) && forall id :: id in d ==> d[id] == 0
    {
      assert nodes[..i + 1] == nodes[..i] + [nodes[i]];
      IdsSnoc(nodes[..i], nodes[i]);
      d := d[nodes[i].id := 0];
    }
    assert nodes[..|nodes|] == nodes;
    for i := 0 to |links|
      invariant Counts(d, ids, links[..i])
    {
      var l := links[i];
      assert links[..i + 1] == links[..i] + [l];
      forall id {
        OneLink(links[..i], l, id);
      }
      if l.source in ids {
        d := d[l.source := Degree(d, l.source) + 1];
      }
      if l.target in ids {
        d := d[l.target := Degree(d, l.target) + 1];
      }
    }
    assert links[..|links|] == links;
  }

  lemma IdsSnoc(nodes: seq<Node>, n: Node)
    ensures Ids(nodes + [n]) == Ids(nodes) + {n.id}
  {
    var all := nodes + [n];
    assert all[|nodes|] == n;
    forall x | x in nodes ensures x.id in Ids(all) {
      assert x in all;
    }
  }

  /** The degree map of one more link differs by the ends that are known. */
  lemma {:induction false} SumGrows(nodes: seq<Node>, links: seq<Link>, l: Link, d: Degrees, d': Degrees)
    requires DistinctIds(nodes) && Ids(nodes) <= d.Keys && Ids(nodes) <= d'.Keys
    requires forall id :: id in Ids(nodes) ==> d'[id] == d[id] + Hits(l, id)
    ensures SumOfDegrees(nodes, d') == SumOfDegrees(nodes, d) + KnownEnds(l, Ids(nodes))
  {
    if nodes != [] {
      var n := |nodes| - 1;
      var front := nodes[..n];
      assert nodes == front + [nodes[n]];
      IdsSnoc(front, nodes[n]);
      SumGrows(front, links, l, d, d');
      assert nodes[n].id !in Ids(front);
    }
  }

  function Tally(ids: set<nat>, links: seq<Link>): Degrees {
    map id | id in ids :: DegreeOf(links, id)
  }

  lemma {:induction false} SumOfNone(nodes: seq<Node>, ids: set<nat>)
    ensures SumOfDegrees(nodes, Tally(ids, [])) == 0
  {
    if nodes != [] {
      SumOfNone(nodes[..|nodes| - 1], ids);
    }
  }

  lemma {:induction false} TallyAddsUp(nodes: seq<Node>, links: seq<Link>)
    requires DistinctIds(nodes)
    ensures SumOfDegrees(nodes, Tally(Ids(nodes), links)) == KnownEndpoints(links, Ids(nodes))
  {
    if links == [] {
      SumOfNone(nodes, Ids(nodes));
    } else {
      var n := |links| - 1;
      TallyAddsUp(nodes, links[..n]);
      SumGrows(nodes, links, links[n], Tally(Ids(nodes), links[..n]), Tally(Ids(nodes), links));
    }
  }

  /** The degrees add up to the number of link ends that are known nodes. */
  lemma DegreesAddUp(nodes: seq<Node>, links: seq<Link>, d: Degrees)
    requires DistinctIds(nodes) && Counts(d, Ids(nodes), links)
    ensures SumOfDegrees(nodes, d) == KnownEndpoints(links, Ids(nodes))
  {
    TallyAddsUp(nodes, links);
    assert d == Tally(Ids(nodes), links);
  }

  // ---------------------------------------------------------------- rank

  /** The sort: more degree first, then the id. */
  predicate Before(d: Degrees, a: Node, b: Node) {
    Degree(d, a.id) > Degree(d, b.id) || (Degree(d, a.id) == Degree(d, b.id) && a.id < b.id)
  }

  ghost predicate Ranked(nodes: seq<Node>, d: Degrees) {
    forall i, j :: 0 <= i < j < |nodes| ==> Before(d, nodes[i], nodes[j])
  }

  function Insert(n: Node, nodes: seq<Node>, d: Degrees): seq<Node> {
    if nodes == [] || Before(d, n, nodes[0]) then [n] + nodes else [nodes[0]] + Insert(n, nodes[1..], d)
  }

  function Sort(nodes: seq<Node>, d: Degrees): seq<Node> {
    if nodes == [] then [] else Insert(nodes[0], Sort(nodes[1..], d), d)
  }

  lemma {:induction false} InsertKeeps(n: Node, nodes: seq<Node>, d: Degrees)
    ensures multiset(Insert(n, nodes, d)) == multiset(nodes) + multiset{n}
  {
    if nodes != [] && !Before(d, n, nodes[0]) {
      InsertKeeps(n, nodes[1..], d);
      assert nodes == [nodes[0]] + nodes[1..];
    }
  }

  lemma InSame(a: seq<Node>, b: seq<Node>, x: Node)
    requires multiset(a) == multiset(b)
    ensures |a| == |b| && (x in a <==> x in b)
  {
    assert |a| == |multiset(a)| && |b| == |multiset(b)|;
    assert x in a <==> x in multiset(a);
    assert x in b <==> x in multiset(b);
  }

  lemma {:induction false} InsertRanks(n: Node, nodes: seq<Node>, d: Degrees)
    requires Ranked(nodes, d) && n.id !in Ids(nodes)
    ensures Ranked(Insert(n, nodes, d), d)
  {
    if nodes == [] {
    } else if Before(d, n, nodes[0]) {
      forall j | 0 <= j < |nodes| ensures Before(d, n, nodes[j]) {
      }
    } else {
      var tail := Insert(n, nodes[1..], d);
      assert nodes[0] in nodes;
      forall x | x in nodes[1..] ensures x in nodes {
      }
      InsertRanks(n, nodes[1..], d);
      InsertKeeps(n, nodes[1..], d);
      assert Insert(n, nodes, d) == [nodes[0]] + tail;
      assert Before(d, nodes[0], n) && forall x :: x in nodes[1..] ==> Before(d, nodes[0], x);
      hide Before, Insert;
      forall j | 0 <= j < |tail| ensures Before(d, nodes[0], tail[j]) {
        assert tail[j] in multiset(tail);
        assert tail[j] == n || tail[j] in nodes[1..];
      }
    }
  }

  lemma {:induction false} SortKeeps(nodes: seq<Node>, d: Degrees)
    ensures multiset(Sort(nodes, d)) == multiset(nodes)
  {
    if nodes != [] {
      SortKeeps(nodes[1..], d);
      InsertKeeps(nodes[0], Sort(nodes[1..], d), d);
      assert nodes == [nodes[0]] + nodes[1..];
    }
  }

  lemma {:induction false} SortRanks(nodes: seq<Node>, d: Degrees)
    requires DistinctIds(nodes)
    ensures Ranked(Sort(nodes, d), d)
  {
    if nodes != [] {
      var rest := nodes[1..];
      SortRanks(rest, d);
      SortKeeps(rest, d);
      forall x | x in Sort(rest, d) ensures x.id != nodes[0].id {
        InSame(Sort(rest, d), rest, x);
        var k :| 0 <= k < |rest| && rest[k] == x;
        assert nodes[k + 1] == x;
      }
      InsertRanks(nodes[0], Sort(rest, d), d);
    }
  }

  // ---------------------------------------------------------------- gods and hubs

  function Min(a: nat, b: nat): nat {
    if a < b then a else b
  }

  /** The node leads its community among those that are not gods. */
  ghost predicate Leads(ranked: seq<Node>, gods: set<nat>, k: int)
    requires 0 <= k < |ranked|
  {
    && ranked[k].id !in gods && ranked[k].community.Some?
    && forall j :: 0 <= j < k ==> !(ranked[j].id !in gods && ranked[j].community == ranked[k].community)
  }

  ghost predicate HubsOf(ranked: seq<Node>, gods: set<nat>, upto: nat, hubs: set<nat>)
    requires upto <= |ranked|
  {
    forall id :: id in hubs <==> exists k :: 0 <= k < upto && ranked[k].id == id && Leads(ranked, gods, k)
  }

  lemma HubStep(ranked: seq<Node>, gods: set<nat>, i: nat, hubs: set<nat>)
    requires i < |ranked| && HubsOf(ranked, gods, i, hubs)
    ensures HubsOf(ranked, gods, i + 1, if Leads(ranked, gods, i) then hubs + {ranked[i].id} else hubs)
  {
    var after := if Leads(ranked, gods, i) then hubs + {ranked[i].id} else hubs;
    forall id ensures id in after <==> exists k :: 0 <= k < i + 1 && ranked[k].id == id && Leads(ranked, gods, k) {
      if k :| 0 <= k < i && ranked[k].id == id && Leads(ranked, gods, k) {
        assert id in after;
      }
    }
  }

  ghost predicate SeenSoFar(ranked: seq<Node>, gods: set<nat>, i: nat, seen: set<int>)
    requires i <= |ranked|
  {
    forall c :: c in seen <==> exists k :: 0 <= k < i && ranked[k].id !in gods && ranked[k].community == Some(c)
  }

  lemma SeenStep(ranked: seq<Node>, gods: set<nat>, i: nat, seen: set<int>)
    requires i < |ranked| && SeenSoFar(ranked, gods, i, seen)
    ensures var n := ranked[i];
            SeenSoFar(ranked, gods, i + 1, if n.id !in gods && n.community.Some? then seen + {n.community.value} else seen)
    ensures var n := ranked[i];
            Leads(ranked, gods, i) <==> n.id !in gods && n.community.Some? && n.community.value !in seen
  {
    var n := ranked[i];
    var after := if n.id !in gods && n.community.Some? then seen + {n.community.value} else seen;
    forall c ensures c in after <==> exists k :: 0 <= k < i + 1 && ranked[k].id !in gods && ranked[k].community == Some(c) {
      if k :| 0 <= k < i && ranked[k].id !in gods && ranked[k].community == Some(c) {
        assert c in seen;
      }
    }
    if n.id !in gods && n.community.Some? {
      var c := n.community.value;
      assert n.community == Some(c);
      if j :| 0 <= j < i && ranked[j].id !in gods && ranked[j].community == n.community {
        assert c in seen;
      }
    }
  }

  method FindHubs(ranked: seq<Node>, gods: set<nat>) returns (hubs: set<nat>)
    ensures HubsOf(ranked, gods, |ranked|, hubs)
  {
    hubs := {};
    var seen: set<int> := {};
    assert HubsOf(ranked, gods, 0, hubs) && SeenSoFar(ranked, gods, 0, seen);
    hide HubsOf, SeenSoFar, Leads;
    for i := 0 to |ranked|
      invariant HubsOf(ranked, gods, i, hubs) && SeenSoFar(ranked, gods, i, seen)
    {
      var n := ranked[i];
      HubStep(ranked, gods, i, hubs);
      SeenStep(ranked, gods, i, seen);
      if n.id in gods || n.community.None? {
        continue;
      }
      if n.community.value in seen {
        assert seen + {n.community.value} == seen;
        continue;
      }
      seen := seen + {n.community.value};
      hubs := hubs + {n.id};
    }
  }

  lemma RankedDistinct(ranked: seq<Node>, d: Degrees, i: nat, j: nat)
    requires Ranked(ranked, d) && i < |ranked| && j < |ranked| && ranked[i].id == ranked[j].id
    ensures i == j
  {
  }

  /**
    Each community with a node that is not a god has exactly one hub, a node of its own and no
    god, whose degree no other such node of the community exceeds.
   */
  lemma OneHubEach(ranked: seq<Node>, d: Degrees, gods: set<nat>, hubs: set<nat>, k: nat) returns (h: nat)
    requires Ranked(ranked, d) && HubsOf(ranked, gods, |ranked|, hubs)
    requires k < |ranked| && ranked[k].id !in gods && ranked[k].community.Some?
    ensures h < |ranked| && ranked[h].id in hubs && ranked[h].id !in gods && ranked[h].community == ranked[k].community
    ensures Degree(d, ranked[h].id) >= Degree(d, ranked[k].id)
    ensures forall j :: 0 <= j < |ranked| && ranked[j].id in hubs && ranked[j].community == ranked[k].community ==> j == h
  {
    h := FirstLike(ranked, gods, k);
    assert ranked[h].id in hubs;
    forall j | 0 <= j < |ranked| && ranked[j].id in hubs && ranked[j].community == ranked[k].community ensures j == h {
      var i :| 0 <= i < |ranked| && ranked[i].id == ranked[j].id && Leads(ranked, gods, i);
      RankedDistinct(ranked, d, i, j);
      assert Leads(ranked, gods, j);
    }
  }

  lemma {:induction false} FirstLike(ranked: seq<Node>, gods: set<nat>, k: nat) returns (h: nat)
    requires k < |ranked| && ranked[k].id !in gods && ranked[k].community.Some?
    ensures h <= k && Leads(ranked, gods, h) && ranked[h].community == ranked[k].community
    decreases k
  {
    if j :| 0 <= j < k && ranked[j].id !in gods && ranked[j].community == ranked[k].community {
      h := FirstLike(ranked, gods, j);
    } else {
      h := k;
    }
  }

  /** Every god has at least the degree of every other node. */
  lemma GodsOutrank(ranked: seq<Node>, d: Degrees, count: nat, x: Node, y: Node)
    requires Ranked(ranked, d) && x in ranked && y in ranked
    requires var gods := Ids(ranked[..Min(count, |ranked|)]); x.id in gods && y.id !in gods
    ensures Degree(d, x.id) >= Degree(d, y.id)
  {
    var top := ranked[..Min(count, |ranked|)];
    var z: Node :| z in top && z.id == x.id;
    var i :| 0 <= i < |top| && top[i] == z;
    var j :| 0 <= j < |ranked| && ranked[j] == y;
    forall k | 0 <= k < |top| ensures ranked[k].id in Ids(top) {
      assert top[k] == ranked[k];
    }
  }

  /** The nodes that come before `x`: of a higher degree, or of the same and a smaller id. */
  function Ahead(ranked: seq<Node>, d: Degrees, x: Node): set<Node> {
    set y | y in ranked && (Degree(d, y.id) > Degree(d, x.id) || (Degree(d, y.id) == Degree(d, x.id) && y.id < x.id))
  }

  lemma AheadIsPrefix(ranked: seq<Node>, d: Degrees, i: nat)
    requires Ranked(ranked, d) && i < |ranked|
    ensures Ahead(ranked, d, ranked[i]) == Elements(ranked[..i]) && |Ahead(ranked, d, ranked[i])| == i
  {
    forall y ensures y in Ahead(ranked, d, ranked[i]) <==> y in ranked[..i] {
      if y in ranked {
        var j :| 0 <= j < |ranked| && ranked[j] == y;
        if j < i {
          assert ranked[..i][j] == y && Before(d, ranked[j], ranked[i]);
        } else if j > i {
          assert Before(d, ranked[i], ranked[j]);
        }
      }
      if y in ranked[..i] {
        var j :| 0 <= j < i && ranked[..i][j] == y;
        assert ranked[j] == y && Before(d, ranked[j], ranked[i]);
      }
    }
    forall a, b | 0 <= a < b < i ensures ranked[..i][a] != ranked[..i][b] {
      assert Before(d, ranked[a], ranked[b]);
    }
    UniqueCount(ranked[..i]);
  }

  /** A node is a god exactly when fewer nodes than the count come before it. */
  lemma GodsExactly(ranked: seq<Node>, d: Degrees, count: nat, x: Node)
    requires Ranked(ranked, d) && x in ranked
    ensures x.id in Ids(ranked[..Min(count, |ranked|)]) <==>
              |set y | y in ranked && (Degree(d, y.id) > Degree(d, x.id) || (Degree(d, y.id) == Degree(d, x.id) && y.id < x.id))| < count
  {
    var top := ranked[..Min(count, |ranked|)];
    var i :| 0 <= i < |ranked| && ranked[i] == x;
    AheadIsPrefix(ranked, d, i);
    assert Ahead(ranked, d, x) ==
             set y | y in ranked && (Degree(d, y.id) > Degree(d, x.id) || (Degree(d, y.id) == Degree(d, x.id) && y.id < x.id));
    if i < |top| {
      assert top[i] == x;
    }
    if x.id in Ids(top) {
      var z: Node :| z in top && z.id == x.id;
      var k :| 0 <= k < |top| && top[k] == z;
      RankedDistinct(ranked, d, i, k);
    }
  }

  /**
    A node is a hub exactly when it is no god, has a community, and no other node of it that is no god
    has a higher degree, or the same and a smaller id.
   */
  lemma HubsExactly(ranked: seq<Node>, d: Degrees, gods: set<nat>, hubs: set<nat>, x: Node)
    requires Ranked(ranked, d) && HubsOf(ranked, gods, |ranked|, hubs) && x in ranked
    ensures x.id in hubs <==>
              && x.id !in gods && x.community.Some?
              && forall y :: y in ranked && y.id !in gods && y.community == x.community && y.id != x.id ==>
                   Degree(d, x.id) > Degree(d, y.id) || (Degree(d, x.id) == Degree(d, y.id) && x.id < y.id)
  {
    var i :| 0 <= i < |ranked| && ranked[i] == x;
    if x.id in hubs {
      var k :| 0 <= k < |ranked| && ranked[k].id == x.id && Leads(ranked, gods, k);
      RankedDistinct(ranked, d, i, k);
      forall y | y in ranked && y.id !in gods && y.community == x.community && y.id != x.id ensures Before(d, x, y) {
        var j :| 0 <= j < |ranked| && ranked[j] == y;
        assert j > i;
      }
    } else if x.id !in gods && x.community.Some? {
      assert !Leads(ranked, gods, i);
      var j :| 0 <= j < i && ranked[j].id !in gods && ranked[j].community == ranked[i].community;
      assert Before(d, ranked[j], ranked[i]) && ranked[j] in ranked;
    }
  }

  // ---------------------------------------------------------------- the backbone

  function Take(nodes: seq<Node>, n: nat): seq<Node> {
    if |nodes| <= n then nodes else nodes[..n]
  }

  /** The nodes whose id is in `ids`, or those whose id is not, in order. */
  function Select(nodes: seq<Node>, ids: set<nat>, yes: bool): seq<Node> {
    if nodes == [] then []
    else
      var n := |nodes| - 1;
      Select(nodes[..n], ids, yes) + if (nodes[n].id in ids) == yes then [nodes[n]] else []
  }

  lemma {:induction false} SelectExactly(nodes: seq<Node>, ids: set<nat>, yes: bool, x: Node)
    ensures x in Select(nodes, ids, yes) <==> x in nodes && (x.id in ids) == yes
  {
    if nodes != [] {
      var n := |nodes| - 1;
      assert nodes == nodes[..n] + [nodes[n]];
      SelectExactly(nodes[..n], ids, yes, x);
    }
  }

  lemma {:induction false} SelectRanked(nodes: seq<Node>, ids: set<nat>, yes: bool, d: Degrees)
    requires Ranked(nodes, d)
    ensures Ranked(Select(nodes, ids, yes), d)
  {
    if nodes != [] {
      var n := |nodes| - 1;
      var front := Select(nodes[..n], ids, yes);
      SelectRanked(nodes[..n], ids, yes, d);
      forall j | 0 <= j < |front| ensures Before(d, front[j], nodes[n]) {
        SelectExactly(nodes[..n], ids, yes, front[j]);
      }
    }
  }

  lemma {:induction false} SelectSizes(nodes: seq<Node>, ids: set<nat>)
    ensures |Select(nodes, ids, true)| + |Select(nodes, ids, false)| == |nodes|
  {
    if nodes != [] {
      SelectSizes(nodes[..|nodes| - 1], ids);
    }
  }

  /** Special nodes first, then the rest, both by rank. */
  function Priority(ranked: seq<Node>, special: set<nat>): seq<Node> {
    Select(ranked, special, true) + Select(ranked, special, false)
  }

  lemma SelectSnoc(nodes: seq<Node>, n: Node, ids: set<nat>, yes: bool)
    ensures Select(nodes + [n], ids, yes) == Select(nodes, ids, yes) + if (n.id in ids) == yes then [n] else []
  {
    assert (nodes + [n])[..|nodes|] == nodes;
  }

  lemma TakeSnoc(nodes: seq<Node>, n: Node, cap: nat)
    ensures |Take(nodes, cap)| == Min(cap, |nodes|)
    ensures Take(nodes + [n], cap) == Take(nodes, cap) + if |nodes| < cap then [n] else []
  {
  }

  lemma NotTakenYet(ranked: seq<Node>, d: Degrees, special: set<nat>, i: nat, cap: nat)
    requires Ranked(ranked, d) && i < |ranked|
    ensures ranked[i].id in special ==> ranked[i].id !in Ids(Take(Select(ranked[..i], special, true), cap))
    ensures ranked[i].id !in special ==>
              ranked[i].id !in Ids(Take(Select(ranked, special, true) + Select(ranked[..i], special, false), cap))
  {
    var n := ranked[i];
    var a, b, c := Select(ranked[..i], special, true), Select(ranked, special, true), Select(ranked[..i], special, false);
    if n.id in special && n.id in Ids(Take(a, cap)) {
      var x: Node :| x in a && x.id == n.id;
      SelectExactly(ranked[..i], special, true, x);
      Earlier(ranked, d, i, x);
    }
    if n.id !in special && n.id in Ids(Take(b + c, cap)) {
      var x: Node :| x in b + c && x.id == n.id;
      SelectExactly(ranked, special, true, x);
      SelectExactly(ranked[..i], special, false, x);
      Earlier(ranked, d, i, x);
    }
  }

  lemma Earlier(ranked: seq<Node>, d: Degrees, i: nat, x: Node)
    requires Ranked(ranked, d) && i < |ranked| && x in ranked[..i]
    ensures x.id != ranked[i].id
  {
    var j :| 0 <= j < i && ranked[..i][j] == x;
    assert Before(d, ranked[j], ranked[i]);
  }

  /** A special node met again is either kept already or came too late. */
  lemma SpecialAgain(ranked: seq<Node>, special: set<nat>, i: nat, cap: nat)
    requires i < |ranked| && ranked[i].id in special
    ensures var all := Select(ranked, special, true) + Select(ranked[..i], special, false);
            |all| >= cap || ranked[i].id in Ids(Take(all, cap))
  {
    SelectExactly(ranked, special, true, ranked[i]);
  }

  /** `add`: whether the node is pushed. */
  predicate Room(kept: seq<Node>, n: Node, cap: nat) {
    n.id !in Ids(kept) && |kept| < cap
  }

  lemma RoundOne(ranked: seq<Node>, d: Degrees, special: set<nat>, i: nat, cap: nat)
    requires Ranked(ranked, d) && i < |ranked|
    ensures var kept := Take(Select(ranked[..i], special, true), cap);
            Take(Select(ranked[..i + 1], special, true), cap)
            == kept + if ranked[i].id in special && Room(kept, ranked[i], cap) then [ranked[i]] else []
  {
    hide Ranked, Ids, Take, Select;
    assert ranked[..i + 1] == ranked[..i] + [ranked[i]];
    var before := Select(ranked[..i], special, true);
    SelectSnoc(ranked[..i], ranked[i], special, true);
    TakeSnoc(before, ranked[i], cap);
    assert before + [] == before && Take(before, cap) + [] == Take(before, cap);
    NotTakenYet(ranked, d, special, i, cap);
  }

  lemma RoundTwo(ranked: seq<Node>, d: Degrees, special: set<nat>, i: nat, cap: nat)
    requires Ranked(ranked, d) && i < |ranked|
    ensures var first := Select(ranked, special, true);
            var kept := Take(first + Select(ranked[..i], special, false), cap);
            Take(first + Select(ranked[..i + 1], special, false), cap)
            == kept + if Room(kept, ranked[i], cap) then [ranked[i]] else []
  {
    hide Ranked, Ids, Take, Select;
    var n, first := ranked[i], Select(ranked, special, true);
    var all := first + Select(ranked[..i], special, false);
    assert ranked[..i + 1] == ranked[..i] + [n];
    SelectSnoc(ranked[..i], n, special, false);
    assert first + (Select(ranked[..i], special, false) + [n]) == all + [n];
    assert first + (Select(ranked[..i], special, false) + []) == all;
    TakeSnoc(all, n, cap);
    assert Take(all, cap) + [] == Take(all, cap);
    NotTakenYet(ranked, d, special, i, cap);
    if n.id in special {
      SpecialAgain(ranked, special, i, cap);
    }
  }

  method Backbone(ranked: seq<Node>, ghost d: Degrees, special: set<nat>, cap: nat) returns (kept: seq<Node>, keptIds: set<nat>)
    requires Ranked(ranked, d)
    ensures kept == Take(Priority(ranked, special), cap) && keptIds == Ids(kept)
  {
    kept, keptIds := [], {};
    assert kept == Take(Select(ranked[..0], special, true), cap) && keptIds == Ids(kept);
    assert Select(ranked[..0], special, false) == [];
    hide Ranked, Ids, Take, Select;
    for i := 0 to |ranked|
      invariant kept == Take(Select(ranked[..i], special, true), cap) && keptIds == Ids(kept)
    {
      RoundOne(ranked, d, special, i, cap);
      IdsSnoc(kept, ranked[i]);
      if ranked[i].id in special && !(ranked[i].id in keptIds || |kept| >= cap) {
        kept, keptIds := kept + [ranked[i]], keptIds + {ranked[i].id};
      }
    }
    assert ranked[..|ranked|] == ranked;
    ghost var first := Select(ranked, special, true);
    assert first + Select(ranked[..0], special, false) == first;
    for i := 0 to |ranked|
      invariant kept == Take(first + Select(ranked[..i], special, false), cap) && keptIds == Ids(kept)
    {
      RoundTwo(ranked, d, special, i, cap);
      IdsSnoc(kept, ranked[i]);
      if !(ranked[i].id in keptIds || |kept| >= cap) {
        kept, keptIds := kept + [ranked[i]], keptIds + {ranked[i].id};
      }
    }
  }

  // ---------------------------------------------------------------- what the backbone is

  lemma {:induction false} RankedIds(nodes: seq<Node>, d: Degrees)
    requires Ranked(nodes, d)
    ensures |Ids(nodes)| == |nodes|
  {
    if nodes != [] {
      var n := |nodes| - 1;
      assert nodes == nodes[..n] + [nodes[n]];
      RankedIds(nodes[..n], d);
      IdsSnoc(nodes[..n], nodes[n]);
      forall x | x in nodes[..n] ensures x.id != nodes[n].id {
        Earlier(nodes, d, n, x);
      }
    }
  }

  /** As many special nodes as special ids, when they all name nodes. */
  lemma SpecialCount(ranked: seq<Node>, d: Degrees, special: set<nat>)
    requires Ranked(ranked, d) && special <= Ids(ranked)
    ensures |Select(ranked, special, true)| == |special|
  {
    hide Ranked, Select;
    var all := Select(ranked, special, true);
    SelectRanked(ranked, special, true, d);
    RankedIds(all, d);
    forall id ensures id in Ids(all) <==> id in special {
      if id in special {
        var x: Node :| x in ranked && x.id == id;
        SelectExactly(ranked, special, true, x);
      }
      if id in Ids(all) {
        var x: Node :| x in all && x.id == id;
        SelectExactly(ranked, special, true, x);
      }
    }
    assert Ids(all) == special;
  }

  /** The cap is met exactly, and every special node is kept when they fit. */
  lemma SpecialsKept(ranked: seq<Node>, d: Degrees, special: set<nat>, cap: nat, x: Node)
    requires Ranked(ranked, d) && special <= Ids(ranked)
    ensures |Take(Priority(ranked, special), cap)| == Min(cap, |ranked|)
    ensures x in Take(Priority(ranked, special), cap) ==> x in ranked
    ensures |special| <= cap && x in ranked && x.id in special ==> x in Take(Priority(ranked, special), cap)
  {
    SelectSizes(ranked, special);
    SpecialCount(ranked, d, special);
    SelectExactly(ranked, special, true, x);
    SelectExactly(ranked, special, false, x);
    var all := Priority(ranked, special);
    if |special| <= cap && x in ranked && x.id in special {
      var k :| 0 <= k < |Select(ranked, special, true)| && Select(ranked, special, true)[k] == x;
      assert all[k] == x && Take(all, cap)[k] == x;
    }
  }

  lemma PriorityOrder(ranked: seq<Node>, d: Degrees, special: set<nat>, i: nat, j: nat)
    requires Ranked(ranked, d) && i < j < |Priority(ranked, special)|
    ensures var x, y := Priority(ranked, special)[i], Priority(ranked, special)[j];
            if (x.id in special) == (y.id in special) then Before(d, x, y) else x.id in special
  {
    var a, b := Select(ranked, special, true), Select(ranked, special, false);
    SelectRanked(ranked, special, true, d);
    SelectRanked(ranked, special, false, d);
    SelectExactly(ranked, special, true, Priority(ranked, special)[i]);
    SelectExactly(ranked, special, true, Priority(ranked, special)[j]);
    SelectExactly(ranked, special, false, Priority(ranked, special)[i]);
    SelectExactly(ranked, special, false, Priority(ranked, special)[j]);
    hide Select, Before;
    if i < |a| {
      assert (a + b)[i] in a;
      if j >= |a| {
        assert (a + b)[j] in b;
      }
    } else {
      assert (a + b)[i] in b && (a + b)[j] in b;
    }
  }

  /**
    No dropped node outranks a kept one of its own kind, by degree and then by id, and no symbol
    displaces a special node.
   */
  lemma DroppedIsBehind(ranked: seq<Node>, d: Degrees, special: set<nat>, cap: nat, x: Node, y: Node)
    requires Ranked(ranked, d) && x in ranked
    requires var kept := Take(Priority(ranked, special), cap); x !in kept && y in kept
    ensures if (x.id in special) == (y.id in special)
            then Degree(d, y.id) > Degree(d, x.id) || (Degree(d, y.id) == Degree(d, x.id) && y.id < x.id)
            else y.id in special
  {
    var all := Priority(ranked, special);
    SelectExactly(ranked, special, true, x);
    SelectExactly(ranked, special, false, x);
    assert x in all;
    var j :| 0 <= j < |all| && all[j] == x;
    var i :| 0 <= i < |Take(all, cap)| && Take(all, cap)[i] == y;
    assert all[i] == y;
    forall k | 0 <= k < cap && k < |all| ensures all[k] in Take(all, cap) {
      assert Take(all, cap)[k] == all[k];
    }
    PriorityOrder(ranked, d, special, i, j);
  }

  // ---------------------------------------------------------------- edges and the whole

  datatype Edge = Edge(source: nat, target: nat, isImport: bool)

  predicate IsImport(relation: string) {
    relation == "imports" || relation == "imports_from" || relation == "re_exports" || relation == "dynamic_import"
  }

  predicate Joins(l: Link, ids: set<nat>) {
    l.source in ids && l.target in ids
  }

  function EdgesOf(links: seq<Link>, ids: set<nat>): seq<Edge> {
    if links == [] then []
    else
      var l := links[|links| - 1];
      EdgesOf(links[..|links| - 1], ids) + if Joins(l, ids) then [Edge(l.source, l.target, IsImport(l.relation))] else []
  }

  /**
    There is an edge exactly where a link joins two kept nodes, and it is an import exactly for the four
    relations that name one.
   */
  lemma {:induction false} EdgesExactly(links: seq<Link>, ids: set<nat>, e: Edge)
    ensures e in EdgesOf(links, ids) <==>
            exists l :: l in links && l.source in ids && l.target in ids && e.source == l.source && e.target == l.target
              && e.isImport == (l.relation in ["imports", "imports_from", "re_exports", "dynamic_import"])
  {
    if links != [] {
      var n := |links| - 1;
      assert links == links[..n] + [links[n]];
      EdgesExactly(links[..n], ids, e);
      assert links[n] in links;
      forall l | l in links ensures l in links[..n] || l == links[n] {
      }
    }
  }

  // ---------------------------------------------------------------- labels and kinds

  const LABEL_LIMIT := 256

  predicate Separator(c: char) {
    c == '/' || c == ':'
  }

  /** Where the separators begin that the id ends with. */
  function BodyEnd(id: string): nat {
    if id != "" && Separator(id[|id| - 1]) then BodyEnd(id[..|id| - 1]) else |id|
  }

  /** Where the last run of other characters begins. */
  function SegmentStart(id: string): nat {
    if id != "" && !Separator(id[|id| - 1]) then SegmentStart(id[..|id| - 1]) else |id|
  }

  lemma {:induction false} BodyEndMeans(id: string)
    ensures BodyEnd(id) <= |id| && forall k :: BodyEnd(id) <= k < |id| ==> Separator(id[k])
    ensures BodyEnd(id) > 0 ==> !Separator(id[BodyEnd(id) - 1])
  {
    if id != "" && Separator(id[|id| - 1]) {
      BodyEndMeans(id[..|id| - 1]);
    }
  }

  lemma {:induction false} SegmentStartMeans(id: string)
    ensures SegmentStart(id) <= |id| && forall k :: SegmentStart(id) <= k < |id| ==> !Separator(id[k])
    ensures SegmentStart(id) > 0 ==> Separator(id[SegmentStart(id) - 1])
    ensures id != "" && !Separator(id[|id| - 1]) ==> SegmentStart(id) < |id|
  {
    if id != "" && !Separator(id[|id| - 1]) {
      SegmentStartMeans(id[..|id| - 1]);
    }
  }

  function Cut(s: string): string {
    if |s| <= LABEL_LIMIT then s else s[..LABEL_LIMIT]
  }

  /** The last segment that is not empty, or the id itself. */
  function LabelOf(id: string): string {
    BodyEndMeans(id);
    var body := id[..BodyEnd(id)];
    SegmentStartMeans(body);
    Cut(if body == "" then id else body[SegmentStart(body)..])
  }

  /** From `start` to `end` is the last segment of the id that is not empty. */
  ghost predicate LastSegment(id: string, start: nat, end: nat) {
    && start < end <= |id| && (start > 0 ==> id[start - 1] == '/' || id[start - 1] == ':')
    && (forall k :: start <= k < end ==> id[k] != '/' && id[k] != ':')
    && (forall k :: end <= k < |id| ==> id[k] == '/' || id[k] == ':')
  }

  /** A label is never empty nor too long: it is cut from the last segment, or the id when there is none. */
  lemma LabelMeans(id: string)
    requires id != ""
    ensures 0 < |LabelOf(id)| <= 256
    ensures if forall k :: 0 <= k < |id| ==> id[k] == '/' || id[k] == ':' then LabelOf(id) == id[..Min(256, |id|)]
            else exists start: nat, end: nat ::
                   && LastSegment(id, start, end)
                   && LabelOf(id) == id[start..if end - start <= 256 then end else start + 256]
  {
    BodyEndMeans(id);
    var end := BodyEnd(id);
    var body := id[..end];
    SegmentStartMeans(body);
    if end > 0 {
      assert body[end - 1] == id[end - 1];
      var start := SegmentStart(body);
      assert forall k :: 0 <= k < end ==> body[k] == id[k];
      assert LastSegment(id, start, end);
      assert id[start..end] == body[start..];
    }
  }

  datatype Kind = God | Hub | Symbol

  datatype Shown = Shown(
    id: nat, caption: string, file: string, community: Option<int>, name: Option<string>, kind: Kind, degree: nat)

  function Show(n: Node, gods: set<nat>, hubs: set<nat>, d: Degrees): Shown {
    Shown(n.id, LabelOf(n.text), n.file, n.community, n.name,
          if n.id in gods then God else if n.id in hubs then Hub else Symbol, Degree(d, n.id))
  }

  // ---------------------------------------------------------------- communities

  /** What `trim` removes. */
  predicate Space(c: char) {
    || c == ' ' || ('\t' <= c <= '\r') || c == '\U{A0}' || c == '\U{1680}' || ('\U{2000}' <= c <= '\U{200A}')
    || c == '\U{2028}' || c == '\U{2029}' || c == '\U{202F}' || c == '\U{205F}' || c == '\U{3000}' || c == '\U{FEFF}'
  }

  predicate Blank(s: string) {
    forall c :: c in s ==> Space(c)
  }

  /** The name that was read, or `community` and the number. */
  datatype Title = Named(text: string) | Numbered

  datatype Community = Community(id: int, title: Title, size: nat)

  function CommunityIds(nodes: seq<Node>): set<int> {
    set n | n in nodes && n.community.Some? :: n.community.value
  }

  function SizeOf(nodes: seq<Node>, c: int): nat {
    if nodes == [] then 0
    else SizeOf(nodes[..|nodes| - 1], c) + (if nodes[|nodes| - 1].community == Some(c) then 1 else 0)
  }

  predicate NamesIt(n: Node, c: int) {
    n.community == Some(c) && n.name.Some? && !Blank(n.name.value)
  }

  /** The last name that is not blank. */
  function TitleOf(nodes: seq<Node>, c: int): Title {
    if nodes == [] then Numbered
    else
      var n := nodes[|nodes| - 1];
      if NamesIt(n, c) then Named(n.name.value) else TitleOf(nodes[..|nodes| - 1], c)
  }

  /** The size is the number of nodes of the community. */
  lemma {:induction false} SizeCounts(nodes: seq<Node>, c: int)
    ensures SizeOf(nodes, c) == |set k | 0 <= k < |nodes| && nodes[k].community == Some(c)|
  {
    if nodes != [] {
      var n := |nodes| - 1;
      var front := nodes[..n];
      SizeCounts(front, c);
      var a, a' := set k | 0 <= k < n && front[k].community == Some(c), set k | 0 <= k < |nodes| && nodes[k].community == Some(c);
      assert a' == a + (if nodes[n].community == Some(c) then {n} else {}) && n !in a;
    }
  }

  /**
    The title is the name of the last node of the community whose name is more than spaces; without
    such a node the community goes by its number.
   */
  lemma {:induction false} TitleMeans(nodes: seq<Node>, c: int)
    ensures TitleOf(nodes, c).Named? ==>
              exists k :: 0 <= k < |nodes| && Naming(nodes[k], c, TitleOf(nodes, c).text)
                && forall j, t :: k < j < |nodes| ==> !Naming(nodes[j], c, t)
    ensures TitleOf(nodes, c).Numbered? ==> forall j, t :: 0 <= j < |nodes| ==> !Naming(nodes[j], c, t)
  {
    if nodes != [] {
      var n := |nodes| - 1;
      TitleMeans(nodes[..n], c);
      if NamesIt(nodes[n], c) {
        assert Naming(nodes[n], c, nodes[n].name.value);
      } else if TitleOf(nodes, c).Named? {
        var k :| 0 <= k < n && Naming(nodes[..n][k], c, TitleOf(nodes, c).text)
          && forall j, t :: k < j < n ==> !Naming(nodes[..n][j], c, t);
        assert Naming(nodes[k], c, TitleOf(nodes, c).text);
        forall j, t | k < j < |nodes| ensures !Naming(nodes[j], c, t) {
          if j < n {
            assert nodes[..n][j] == nodes[j];
          }
        }
      } else {
        forall j, t | 0 <= j < |nodes| ensures !Naming(nodes[j], c, t) {
          if j < n {
            assert nodes[..n][j] == nodes[j];
          }
        }
      }
    }
  }

  /** The node is of this community and gives it this name, which is more than spaces. */
  predicate Naming(n: Node, c: int, text: string) {
    n.community == Some(c) && n.name == Some(text) && exists ch :: ch in text && !Space(ch)
  }

  ghost predicate Aggregated(nodes: seq<Node>, agg: map<int, Community>) {
    && agg.Keys == CommunityIds(nodes)
    && forall c :: c in agg ==> agg[c] == Community(c, TitleOf(nodes, c), SizeOf(nodes, c))
  }

  /** Larger first, then by number. */
  predicate Larger(a: Community, b: Community) {
    a.size > b.size || (a.size == b.size && a.id < b.id)
  }

  lemma {:induction false} NoMember(nodes: seq<Node>, c: int)
    requires c !in CommunityIds(nodes)
    ensures SizeOf(nodes, c) == 0 && TitleOf(nodes, c) == Numbered
  {
    if nodes != [] {
      var n := |nodes| - 1;
      assert nodes == nodes[..n] + [nodes[n]];
      assert nodes[n] in nodes;
      NoMember(nodes[..n], c);
    }
  }

  lemma OneMember(nodes: seq<Node>, n: Node, c: int)
    ensures CommunityIds(nodes + [n]) == CommunityIds(nodes) + (if n.community.Some? then {n.community.value} else {})
    ensures SizeOf(nodes + [n], c) == SizeOf(nodes, c) + (if n.community == Some(c) then 1 else 0)
    ensures TitleOf(nodes + [n], c) == if NamesIt(n, c) then Named(n.name.value) else TitleOf(nodes, c)
  {
    assert (nodes + [n])[..|nodes|] == nodes;
    CommunitySnoc(nodes, n);
  }

  lemma CommunitySnoc(nodes: seq<Node>, n: Node)
    ensures CommunityIds(nodes + [n]) == CommunityIds(nodes) + (if n.community.Some? then {n.community.value} else {})
  {
    var all := nodes + [n];
    assert n in all;
    assert forall x :: x in nodes ==> x in all;
  }

  /** The aggregate after one more node. */
  function AddMember(agg: map<int, Community>, n: Node): map<int, Community> {
    if n.community.None? then agg
    else
      var c := n.community.value;
      var known := if c in agg then agg[c] else Community(c, Numbered, 0);
      agg[c := Community(c, if NamesIt(n, c) then Named(n.name.value) else known.title, known.size + 1)]
  }

  lemma AggregateOne(nodes: seq<Node>, agg: map<int, Community>, n: Node)
    requires Aggregated(nodes, agg)
    ensures Aggregated(nodes + [n], AddMember(agg, n))
  {
    hide CommunityIds, SizeOf, TitleOf, NamesIt;
    OneMember(nodes, n, 0);
    forall c {
      OneMember(nodes, n, c);
    }
    if n.community.Some? && n.community.value !in agg {
      NoMember(nodes, n.community.value);
    }
    assert forall c :: NamesIt(n, c) ==> n.community == Some(c) by { OnlyItsOwn(n); }
  }

  lemma OnlyItsOwn(n: Node)
    ensures forall c :: NamesIt(n, c) ==> n.community == Some(c)
  {
  }

  /** The aggregate, and its keys in the order in which they were first set. */
  method AggregateCommunities(nodes: seq<Node>) returns (agg: map<int, Community>, order: seq<int>)
    ensures Aggregated(nodes, agg) && Elements(order) == agg.Keys
  {
    agg, order := map[], [];
    assert Aggregated(nodes[..0], agg);
    hide Aggregated, NamesIt;
    for i := 0 to |nodes|
      invariant Aggregated(nodes[..i], agg) && Elements(order) == agg.Keys
    {
      assert nodes[..i + 1] == nodes[..i] + [nodes[i]];
      AggregateOne(nodes[..i], agg, nodes[i]);
      if nodes[i].community.Some? && nodes[i].community.value !in agg {
        ElementsSnoc(order, nodes[i].community.value);
        order := order + [nodes[i].community.value];
      }
      agg := AddMember(agg, nodes[i]);
    }
    assert nodes[..|nodes|] == nodes;
  }

  method LargestOf(agg: map<int, Community>, order: seq<int>, rest: set<int>) returns (c: int)
    requires rest != {} && rest <= agg.Keys == Elements(order) && forall x :: x in agg ==> agg[x].id == x
    ensures c in rest && forall x :: x in rest && x != c ==> Larger(agg[c], agg[x])
  {
    var best: Option<int> := None;
    for i := 0 to |order|
      invariant best.None? ==> rest !! Elements(order[..i])
      invariant best.Some? ==>
                  best.value in rest
                  && forall k :: 0 <= k < i && order[k] in rest && order[k] != best.value ==> Larger(agg[best.value], agg[order[k]])
    {
      assert order[..i + 1] == order[..i] + [order[i]];
      ElementsSnoc(order[..i], order[i]);
      if order[i] in rest && (best.None? || (order[i] != best.value && Larger(agg[order[i]], agg[best.value]))) {
        best := Some(order[i]);
      }
    }
    assert order[..|order|] == order;
    assert rest * Elements(order) == rest;
    c := best.value;
  }

  /** The largest communities of the whole document, largest first. */
  ghost predicate Listed(nodes: seq<Node>, max: nat, cs: seq<Community>) {
    && |cs| == Min(max, |CommunityIds(nodes)|)
    && (forall i :: 0 <= i < |cs| ==>
          cs[i].id in CommunityIds(nodes) && cs[i] == Community(cs[i].id, TitleOf(nodes, cs[i].id), SizeOf(nodes, cs[i].id)))
    && (forall i, j :: 0 <= i < j < |cs| ==> cs[i].size > cs[j].size || (cs[i].size == cs[j].size && cs[i].id < cs[j].id))
    && (forall c, i :: c in CommunityIds(nodes) && 0 <= i < |cs| && (forall k :: 0 <= k < |cs| ==> cs[k].id != c) ==>
          cs[i].size > SizeOf(nodes, c) || (cs[i].size == SizeOf(nodes, c) && cs[i].id < c))
  }

  /** The communities taken so far, and those still to choose from. */
  ghost predicate Taken(agg: map<int, Community>, cs: seq<Community>, rest: set<int>) {
    && rest <= agg.Keys && |cs| + |rest| == |agg.Keys|
    && (forall i :: 0 <= i < |cs| ==> cs[i].id in agg && cs[i] == agg[cs[i].id] && cs[i].id !in rest)
    && (forall i, j :: 0 <= i < j < |cs| ==> Larger(cs[i], cs[j]))
    && (forall c :: c in agg && c !in rest ==> exists k :: 0 <= k < |cs| && cs[k].id == c)
    && (forall c, i :: c in rest && 0 <= i < |cs| ==> Larger(cs[i], agg[c]))
  }

  lemma TakeLargest(agg: map<int, Community>, cs: seq<Community>, rest: set<int>, c: int)
    requires Taken(agg, cs, rest) && c in rest && (forall x :: x in agg ==> agg[x].id == x)
    requires forall x :: x in rest && x != c ==> Larger(agg[c], agg[x])
    ensures Taken(agg, cs + [agg[c]], rest - {c})
  {
    hide Larger;
    var next := cs + [agg[c]];
    forall x | x in agg && x !in rest - {c} ensures exists k :: 0 <= k < |next| && next[k].id == x {
      if x == c {
        assert next[|cs|].id == x;
      } else {
        var k :| 0 <= k < |cs| && cs[k].id == x;
        assert next[k].id == x;
      }
    }
  }

  lemma TakenIsListed(nodes: seq<Node>, agg: map<int, Community>, max: nat, cs: seq<Community>, rest: set<int>)
    requires Aggregated(nodes, agg) && Taken(agg, cs, rest) && |cs| <= max && (rest == {} || |cs| == max)
    ensures Listed(nodes, max, cs)
  {
    hide CommunityIds, TitleOf, SizeOf;
  }

  method ListCommunities(nodes: seq<Node>, max: nat) returns (cs: seq<Community>, count: nat)
    ensures Listed(nodes, max, cs) && count == |CommunityIds(nodes)|
  {
    var agg, order := AggregateCommunities(nodes);
    cs, count := [], |agg|;
    var rest := agg.Keys;
    assert |agg| == |agg.Keys|;
    assert Taken(agg, cs, rest);
    assert forall x :: x in agg ==> agg[x].id == x;
    hide Taken, Listed, CommunityIds, TitleOf, SizeOf, Larger;
    while rest != {} && |cs| < max
      invariant Taken(agg, cs, rest) && |cs| <= max && rest <= agg.Keys
      decreases |rest|
    {
      var c := LargestOf(agg, order, rest);
      TakeLargest(agg, cs, rest, c);
      cs, rest := cs + [agg[c]], rest - {c};
    }
    TakenIsListed(nodes, agg, max, cs, rest);
  }

  /** Every node with a community is counted in exactly one: the sizes add up. */
  function SumOfSizes(nodes: seq<Node>, ids: seq<int>): nat {
    if ids == [] then 0 else SumOfSizes(nodes, ids[..|ids| - 1]) + SizeOf(nodes, ids[|ids| - 1])
  }

  function Members(nodes: seq<Node>): nat {
    if nodes == [] then 0 else Members(nodes[..|nodes| - 1]) + (if nodes[|nodes| - 1].community.Some? then 1 else 0)
  }

  lemma {:induction false} SumOfNothing(ids: seq<int>)
    ensures SumOfSizes([], ids) == 0
  {
    if ids != [] {
      SumOfNothing(ids[..|ids| - 1]);
    }
  }

  lemma {:induction false} SizesGrow(nodes: seq<Node>, n: Node, ids: seq<int>)
    requires Distinct(ids)
    ensures SumOfSizes(nodes + [n], ids)
            == SumOfSizes(nodes, ids) + (if n.community.Some? && n.community.value in ids then 1 else 0)
  {
    if ids != [] {
      var last := |ids| - 1;
      SizesGrow(nodes, n, ids[..last]);
      assert ids == ids[..last] + [ids[last]];
      assert (nodes + [n])[..|nodes|] == nodes;
      assert ids[last] !in ids[..last];
    }
  }

  lemma {:induction false} SizesAddUp(nodes: seq<Node>, ids: seq<int>)
    requires Distinct(ids) && CommunityIds(nodes) <= Elements(ids)
    ensures SumOfSizes(nodes, ids) == Members(nodes)
  {
    if nodes == [] {
      SumOfNothing(ids);
    } else {
      var n := |nodes| - 1;
      assert nodes == nodes[..n] + [nodes[n]];
      CommunitySnoc(nodes[..n], nodes[n]);
      SizesAddUp(nodes[..n], ids);
      SizesGrow(nodes[..n], nodes[n], ids);
    }
  }

  // ---------------------------------------------------------------- the view

  datatype Summary = Summary(nodes: nat, links: nat, communities: nat, hubs: nat, truncated: bool)

  datatype View = View(
    degree: Degrees, gods: set<nat>, hubs: set<nat>, kept: seq<Node>, shown: seq<Shown>, edges: seq<Edge>,
    communities: seq<Community>, summary: Summary)

  /** `truncated` is exactly that the document has more nodes than the cap. */
  method ProjectKnowledgeGraph(nodes: seq<Node>, links: seq<Link>, godCount: nat, cap: nat, maxCommunities: nat) returns (v: View)
    requires DistinctIds(nodes)
    ensures Counts(v.degree, Ids(nodes), links)
    ensures |Sort(nodes, v.degree)| == |nodes|
    ensures Ranked(Sort(nodes, v.degree), v.degree) && multiset(Sort(nodes, v.degree)) == multiset(nodes)
    ensures v.gods == Ids(Sort(nodes, v.degree)[..Min(godCount, |nodes|)])
    ensures HubsOf(Sort(nodes, v.degree), v.gods, |nodes|, v.hubs)
    ensures v.gods !! v.hubs && v.gods + v.hubs <= Ids(Sort(nodes, v.degree))
    ensures v.kept == Take(Priority(Sort(nodes, v.degree), v.gods + v.hubs), cap)
    ensures |v.shown| == |v.kept| && forall i :: 0 <= i < |v.kept| ==>
              && v.shown[i].id == v.kept[i].id && v.shown[i].file == v.kept[i].file
              && v.shown[i].community == v.kept[i].community && v.shown[i].name == v.kept[i].name
              && v.shown[i].caption == LabelOf(v.kept[i].text)
              && v.shown[i].degree == DegreeOf(links, v.kept[i].id)
              && (v.shown[i].kind == God <==> v.kept[i].id in v.gods) && (v.shown[i].kind == Hub <==> v.kept[i].id in v.hubs)
              && (v.shown[i].kind == Symbol <==> v.kept[i].id !in v.gods && v.kept[i].id !in v.hubs)
    ensures v.edges == EdgesOf(links, Ids(v.kept))
    ensures Listed(nodes, maxCommunities, v.communities)
    ensures v.summary == Summary(|nodes|, |links|, |CommunityIds(nodes)|, |v.gods| + |v.hubs|, cap < |nodes|)
  {
    hide Ranked, Ids, Take, Priority, HubsOf, Counts, DistinctIds, EdgesOf, Sort, Listed, CommunityIds, Show;
    var d := CountDegrees(nodes, links);
    var ranked := Sort(nodes, d);
    SortKeeps(nodes, d);
    SortRanks(nodes, d);
    assert |ranked| == |nodes| by {
      assert |multiset(ranked)| == |ranked| && |multiset(nodes)| == |nodes|;
    }
    var gods := Ids(ranked[..Min(godCount, |ranked|)]);
    var hubs := FindHubs(ranked, gods);
    SpecialsAreNodes(ranked, Min(godCount, |ranked|), gods, hubs);
    var kept, keptIds := Backbone(ranked, d, gods + hubs, cap);
    var edges := JoinKept(links, keptIds);
    var communities, count := ListCommunities(nodes, maxCommunities);
    KeptSize(ranked, gods + hubs, cap);
    var shown := seq(|kept|, i requires 0 <= i < |kept| => Show(kept[i], gods, hubs, d));
    v := View(d, gods, hubs, kept, shown, edges, communities,
              Summary(|nodes|, |links|, count, |gods| + |hubs|, |kept| < |nodes|));
    KeptAreNodes(nodes, ranked, gods + hubs, cap, kept);
    forall i | 0 <= i < |kept| ensures shown[i].degree == DegreeOf(links, kept[i].id) && ShownWell(shown[i], kept[i], gods, hubs) {
      KeptDegree(nodes, links, d, kept[i]);
      ShowMeans(kept[i], gods, hubs, d);
    }
  }

  ghost predicate ShownWell(x: Shown, n: Node, gods: set<nat>, hubs: set<nat>) {
    && x.id == n.id && x.file == n.file && x.community == n.community && x.name == n.name && x.caption == LabelOf(n.text)
    && (x.kind == God <==> n.id in gods) && (x.kind == Hub <==> n.id in hubs)
    && (x.kind == Symbol <==> n.id !in gods && n.id !in hubs)
  }

  lemma KeptAreNodes(nodes: seq<Node>, ranked: seq<Node>, special: set<nat>, cap: nat, kept: seq<Node>)
    requires multiset(ranked) == multiset(nodes) && kept == Take(Priority(ranked, special), cap)
    ensures forall x :: x in kept ==> x in nodes
  {
    forall x | x in kept ensures x in nodes {
      assert x in Priority(ranked, special);
      SelectExactly(ranked, special, true, x);
      SelectExactly(ranked, special, false, x);
      InSame(ranked, nodes, x);
    }
  }

  lemma KeptDegree(nodes: seq<Node>, links: seq<Link>, d: Degrees, x: Node)
    requires Counts(d, Ids(nodes), links) && x in nodes
    ensures Degree(d, x.id) == DegreeOf(links, x.id)
  {
    assert x.id in Ids(nodes);
  }

  lemma ShowMeans(n: Node, gods: set<nat>, hubs: set<nat>, d: Degrees)
    requires gods !! hubs
    ensures var x := Show(n, gods, hubs, d);
            ShownWell(x, n, gods, hubs) && x.degree == Degree(d, n.id)
  {
    hide LabelOf;
  }

  method JoinKept(links: seq<Link>, keptIds: set<nat>) returns (edges: seq<Edge>)
    ensures edges == EdgesOf(links, keptIds)
  {
    hide EdgesOf;
    edges := [];
    NoEdges(links, keptIds);
    for i := 0 to |links|
      invariant edges == EdgesOf(links[..i], keptIds)
    {
      EdgesSnoc(links, i, keptIds);
      if Joins(links[i], keptIds) {
        edges := edges + [Edge(links[i].source, links[i].target, IsImport(links[i].relation))];
      }
    }
    assert links[..|links|] == links;
  }

  lemma NoEdges(links: seq<Link>, ids: set<nat>)
    ensures EdgesOf(links[..0], ids) == []
  {
  }

  lemma EdgesSnoc(links: seq<Link>, i: nat, ids: set<nat>)
    requires i < |links|
    ensures EdgesOf(links[..i + 1], ids) == EdgesOf(links[..i], ids)
            + if Joins(links[i], ids) then [Edge(links[i].source, links[i].target, IsImport(links[i].relation))] else []
  {
    assert links[..i + 1][..i] == links[..i];
  }

  lemma KeptSize(ranked: seq<Node>, special: set<nat>, cap: nat)
    ensures |Take(Priority(ranked, special), cap)| == Min(cap, |ranked|)
  {
    SelectSizes(ranked, special);
  }

  lemma SpecialsAreNodes(ranked: seq<Node>, top: nat, gods: set<nat>, hubs: set<nat>)
    requires top <= |ranked| && gods == Ids(ranked[..top]) && HubsOf(ranked, gods, |ranked|, hubs)
    ensures gods !! hubs && gods + hubs <= Ids(ranked)
  {
    forall id | id in gods ensures id in Ids(ranked) {
      var x: Node :| x in ranked[..top] && x.id == id;
      assert x in ranked;
    }
    forall id | id in hubs ensures id in Ids(ranked) && id !in gods {
      var k :| 0 <= k < |ranked| && ranked[k].id == id && Leads(ranked, gods, k);
      assert ranked[k] in ranked;
    }
  }
}

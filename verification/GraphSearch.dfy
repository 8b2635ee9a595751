/**
  The bounded breadth-first searches over the operational graph. A graph is what the
  repository answers for one query: per known node, its matching outgoing edges and, at the
  same index, the node at the far end of each.
 */
module GraphSearch {
  import opened Prelude

  datatype Ref = Ref(kind: string, entityId: string)

  datatype Edge = Edge(id: string, source: Ref, target: Ref)

  datatype Neighbors = Neighbors(nodes: seq<Ref>, edges: seq<Edge>, truncated: bool, examined: nat)

  type Graph = map<Ref, Neighbors>

  const MAX_EXAMINED := 10_000
  const MAX_VISITED := 2000

  ghost predicate WfGraph(g: Graph) {
    forall x :: x in g ==>
      && |g[x].nodes| == |g[x].edges|
      && forall k :: 0 <= k < |g[x].nodes| ==>
           g[x].nodes[k] in g && g[x].edges[k].source == x && g[x].edges[k].target == g[x].nodes[k]
  }

  ghost function Succ(g: Graph, x: Ref): set<Ref> {
    if x in g then Elements(g[x].nodes) else {}
  }

  /** The nodes reachable from `start` in at most `n` steps. */
  ghost function Reach(g: Graph, start: Ref, n: nat): set<Ref> {
    if n == 0 then {start} else
      Reach(g, start, n - 1) + set x, y | x in Reach(g, start, n - 1) && y in Succ(g, x) :: y
  }

  ghost predicate IsPath(g: Graph, start: Ref, nodes: seq<Ref>, edges: seq<Edge>) {
    && |nodes| == |edges| + 1
    && nodes[0] == start
    && forall i :: 0 <= i < |edges| ==>
         nodes[i] in g && edges[i] in g[nodes[i]].edges && edges[i].source == nodes[i] && edges[i].target == nodes[i + 1]
  }

  ghost predicate PathTo(g: Graph, start: Ref, target: Ref, nodes: seq<Ref>, edges: seq<Edge>) {
    IsPath(g, start, nodes, edges) && nodes[|edges|] == target
  }

  // ---------------------------------------------------------------- reachability

  lemma {:induction false} PathReaches(g: Graph, start: Ref, nodes: seq<Ref>, edges: seq<Edge>)
    requires WfGraph(g) && IsPath(g, start, nodes, edges)
    ensures nodes[|edges|] in Reach(g, start, |edges|)
  {
    var n := |edges|;
    if n > 0 {
      assert IsPath(g, start, nodes[..n], edges[..n - 1]);
      PathReaches(g, start, nodes[..n], edges[..n - 1]);
      var x := nodes[n - 1];
      var k :| 0 <= k < |g[x].edges| && g[x].edges[k] == edges[n - 1];
      assert nodes[n] == g[x].nodes[k];
      assert nodes[n] in Succ(g, x);
    }
  }

  lemma {:induction false} ReachGrows(g: Graph, start: Ref, m: nat, n: nat)
    requires m <= n
    ensures Reach(g, start, m) <= Reach(g, start, n)
    decreases n
  {
    if m < n {
      ReachGrows(g, start, m, n - 1);
    }
  }

  /** A set that holds `Reach(m)` and is closed under successors holds everything reachable. */
  lemma {:induction false} ClosedHoldsReach(g: Graph, start: Ref, m: nat, s: set<Ref>, n: nat)
    requires Reach(g, start, m) <= s && (forall x :: x in s ==> Succ(g, x) <= s)
    ensures Reach(g, start, n) <= s
  {
    if n <= m {
      ReachGrows(g, start, n, m);
    } else {
      ClosedHoldsReach(g, start, m, s, n - 1);
    }
  }

  lemma StepReaches(g: Graph, start: Ref, n: nat, x: Ref, y: Ref)
    requires x in Reach(g, start, n) && y in Succ(g, x)
    ensures y in Reach(g, start, n + 1)
  {
  }

  /** One more level is reached once every node of the last one has its successors in `s`. */
  lemma NextLevel(g: Graph, start: Ref, n: nat, s: set<Ref>)
    requires Reach(g, start, n) <= s && (forall x :: x in Reach(g, start, n) ==> Succ(g, x) <= s)
    ensures Reach(g, start, n + 1) <= s
  {
  }

  lemma {:induction false} ReachKnown(g: Graph, start: Ref, n: nat)
    requires WfGraph(g) && start in g
    ensures Reach(g, start, n) <= g.Keys
  {
    if n > 0 {
      ReachKnown(g, start, n - 1);
    }
  }

  // ---------------------------------------------------------------- budgets

  /** The edges examined by asking for the neighbours of every node of `s` once. */
  ghost function Examined(g: Graph, s: set<Ref>): nat {
    if s == {} then 0 else
      var x :| x in s;
      (if x in g then g[x].examined else 0) + Examined(g, s - {x})
  }

  lemma {:induction false} ExaminedWithout(g: Graph, s: set<Ref>, x: Ref)
    requires x in s
    ensures Examined(g, s) == (if x in g then g[x].examined else 0) + Examined(g, s - {x})
  {
    var y :| y in s && Examined(g, s) == (if y in g then g[y].examined else 0) + Examined(g, s - {y});
    if y != x {
      ExaminedWithout(g, s - {y}, x);
      ExaminedWithout(g, s - {x}, y);
      assert s - {y} - {x} == s - {x} - {y};
    }
  }

  lemma {:induction false} ExaminedGrows(g: Graph, s: set<Ref>, t: set<Ref>)
    requires s <= t
    ensures Examined(g, s) <= Examined(g, t)
  {
    if s != {} {
      var x :| x in s;
      ExaminedWithout(g, s, x);
      ExaminedWithout(g, t, x);
      ExaminedGrows(g, s - {x}, t - {x});
    }
  }

  /** Why a search of `depth` levels may stop short: a cut-off answer or an exhausted budget. */
  ghost predicate BudgetReason(g: Graph, start: Ref, depth: nat) {
    || (exists x :: x in Reach(g, start, depth) && x in g && g[x].truncated)
    || Examined(g, Reach(g, start, depth)) > MAX_EXAMINED
  }

  /** The budget is spent when an answer within the depth was cut off, or they examined too much together. */
  lemma BudgetMeans(g: Graph, start: Ref, depth: nat, reached: set<Ref>, x: Ref)
    ensures BudgetReason(g, start, depth)
            <==> (exists y :: y in Reach(g, start, depth) && y in g && g[y].truncated)
                 || Examined(g, Reach(g, start, depth)) > 10_000
    ensures x in reached ==>
              Examined(g, reached) == Examined(g, reached - {x}) + (if x in g then g[x].examined else 0)
    ensures Examined(g, {}) == 0
  {
    if x in reached {
      ExaminedWithout(g, reached, x);
    }
  }

  // ---------------------------------------------------------------- graphPath

  datatype PathResult =
    | Found(nodes: seq<Ref>, edges: seq<Edge>)
    | NotFound
    | LimitExceeded
    | NodeMissing

  datatype Entry = Entry(node: Ref, nodes: seq<Ref>, edges: seq<Edge>)

  /** An entry holds a path to its node, and that node has no shorter one. */
  ghost predicate GoodEntry(g: Graph, start: Ref, e: Entry) {
    && PathTo(g, start, e.node, e.nodes, e.edges)
    && (|e.edges| > 0 ==> e.node !in Reach(g, start, |e.edges| - 1))
  }

  ghost predicate GoodQueue(g: Graph, start: Ref, queue: seq<Entry>, level: nat) {
    && (forall i :: 0 <= i < |queue| ==> GoodEntry(g, start, queue[i]))
    && (forall i :: 0 <= i < |queue| ==> level <= |queue[i].edges| <= level + 1)
    && (forall i, j :: 0 <= i < j < |queue| ==> |queue[i].edges| <= |queue[j].edges|)
  }

  /** What the visited set knows: everything within `level`, and the successors of all done nodes. */
  ghost predicate Covers(g: Graph, start: Ref, visited: set<Ref>, open: set<Ref>, level: nat, maxDepth: nat) {
    && level <= maxDepth
    && Reach(g, start, level) <= visited
    && open <= visited
    && (level < maxDepth ==> visited <= Reach(g, start, level + 1))
    && (level < maxDepth ==> forall x :: x in visited && x !in open ==> Succ(g, x) <= visited)
  }

  /** `open` is the set of queued nodes, each queued once. */
  ghost predicate Opens(queue: seq<Entry>, open: set<Ref>) {
    && (forall i :: 0 <= i < |queue| ==> queue[i].node in open)
    && (forall x :: x in open ==> exists i :: 0 <= i < |queue| && queue[i].node == x)
    && (forall i, j :: 0 <= i < j < |queue| ==> queue[i].node != queue[j].node)
  }

  lemma CoversNext(g: Graph, start: Ref, visited: set<Ref>, open: set<Ref>, level: nat, maxDepth: nat)
    requires Covers(g, start, visited, open, level, maxDepth) && level < maxDepth
    requires open !! Reach(g, start, level)
    ensures Covers(g, start, visited, open, level + 1, maxDepth)
  {
    forall x | x in Reach(g, start, level) ensures Succ(g, x) <= visited {
    }
    NextLevel(g, start, level, visited);
    ReachGrows(g, start, level + 1, level + 2);
  }

  /** Once the front of the queue is a level deeper, all of it is. */
  lemma QueueDeeper(g: Graph, start: Ref, queue: seq<Entry>, level: nat)
    requires GoodQueue(g, start, queue, level) && queue != [] && |queue[0].edges| == level + 1
    ensures GoodQueue(g, start, queue, level + 1)
    ensures forall i :: 0 <= i < |queue| ==> |queue[i].edges| == level + 1
  {
    forall i | 0 <= i < |queue| ensures |queue[i].edges| == level + 1 {
      if i > 0 {
        assert |queue[0].edges| <= |queue[i].edges|;
      }
    }
  }

  lemma OpenIsDeeper(g: Graph, start: Ref, queue: seq<Entry>, open: set<Ref>, level: nat)
    requires forall i :: 0 <= i < |queue| ==> GoodEntry(g, start, queue[i]) && |queue[i].edges| == level + 1
    requires Opens(queue, open)
    ensures open !! Reach(g, start, level)
  {
    forall x | x in open ensures x !in Reach(g, start, level) {
      var i :| 0 <= i < |queue| && queue[i].node == x;
      assert GoodEntry(g, start, queue[i]);
    }
  }

  /** Taking the first entry off the queue. */
  lemma Dequeued(g: Graph, start: Ref, queue: seq<Entry>, open: set<Ref>, level: nat)
    requires queue != [] && GoodQueue(g, start, queue, level) && Opens(queue, open)
    ensures GoodQueue(g, start, queue[1..], level) && Opens(queue[1..], open - {queue[0].node})
  {
    forall x | x in open - {queue[0].node} ensures exists i :: 0 <= i < |queue[1..]| && queue[1..][i].node == x {
      var i :| 0 <= i < |queue| && queue[i].node == x;
      assert queue[1..][i - 1].node == x;
    }
  }

  lemma OpensMore(queue: seq<Entry>, open: set<Ref>, e: Entry)
    requires Opens(queue, open) && e.node !in open
    ensures Opens(queue + [e], open + {e.node})
  {
    var more := queue + [e];
    forall x | x in open + {e.node} ensures exists i :: 0 <= i < |more| && more[i].node == x {
      if x in open {
        var i :| 0 <= i < |queue| && queue[i].node == x;
        assert more[i].node == x;
      } else {
        assert more[|queue|].node == x;
      }
    }
  }

  /** Appending the entry of a node that was not known within `level`. */
  lemma Enqueued(g: Graph, start: Ref, queue: seq<Entry>, open: set<Ref>, level: nat, e: Entry)
    requires GoodQueue(g, start, queue, level) && Opens(queue, open)
    requires GoodEntry(g, start, e) && |e.edges| == level + 1 && e.node !in open
    ensures GoodQueue(g, start, queue + [e], level) && Opens(queue + [e], open + {e.node})
  {
    OpensMore(queue, open, e);
    hide GoodEntry, Opens;
  }

  /** Extending the path of an entry along one of its node's edges. */
  function Extend(g: Graph, e: Entry, k: nat): Entry
    requires e.node in g && k < |g[e.node].nodes| && k < |g[e.node].edges|
  {
    Entry(g[e.node].nodes[k], e.nodes + [g[e.node].nodes[k]], e.edges + [g[e.node].edges[k]])
  }

  lemma ExtendedPath(g: Graph, start: Ref, e: Entry, k: nat)
    requires WfGraph(g) && GoodEntry(g, start, e) && e.node in g && k < |g[e.node].nodes|
    ensures PathTo(g, start, Extend(g, e, k).node, Extend(g, e, k).nodes, Extend(g, e, k).edges)
    ensures Extend(g, e, k).node in Reach(g, start, |e.edges| + 1)
  {
    PathReaches(g, start, e.nodes, e.edges);
    hide Reach;
    assert g[e.node].nodes[k] in Succ(g, e.node);
    StepReaches(g, start, |e.edges|, e.node, g[e.node].nodes[k]);
  }

  /** No path to a node outside `Reach(n)` has `n` edges or fewer. */
  lemma NoShorterPath(g: Graph, start: Ref, target: Ref, n: nat)
    requires WfGraph(g) && target !in Reach(g, start, n)
    ensures forall nodes, edges :: PathTo(g, start, target, nodes, edges) ==> |edges| > n
  {
    forall nodes, edges | PathTo(g, start, target, nodes, edges) ensures |edges| > n {
      PathReaches(g, start, nodes, edges);
      if |edges| <= n {
        ReachGrows(g, start, |edges|, n);
      }
    }
  }

  /** The search ends with everything within `maxDepth` visited. */
  lemma Exhausted(g: Graph, start: Ref, visited: set<Ref>, level: nat, maxDepth: nat)
    requires Covers(g, start, visited, {}, level, maxDepth)
    ensures Reach(g, start, maxDepth) <= visited
  {
    if level < maxDepth {
      ClosedHoldsReach(g, start, level, visited, maxDepth);
    }
  }

  /** The queue, the visited set and the level of a running search. */
  ghost predicate Searching(
    g: Graph, start: Ref, maxDepth: nat, queue: seq<Entry>, visited: set<Ref>, open: set<Ref>, level: nat) {
    && GoodQueue(g, start, queue, level)
    && Opens(queue, open)
    && Covers(g, start, visited, open, level, maxDepth)
    && (forall i :: 0 <= i < |queue| ==> |queue[i].edges| <= maxDepth)
  }

  lemma SearchStarts(g: Graph, start: Ref, maxDepth: nat)
    ensures Searching(g, start, maxDepth, [Entry(start, [start], [])], {start}, {start}, 0)
  {
    var queue := [Entry(start, [start], [])];
    EmptyPath(g, start);
    assert GoodEntry(g, start, queue[0]);
    assert queue[0].node == start;
    ReachGrows(g, start, 0, 1);
  }

  /** Moves the level up when the front of the queue is one deeper. */
  lemma AdvanceLevel(
    g: Graph, start: Ref, maxDepth: nat, queue: seq<Entry>, visited: set<Ref>, open: set<Ref>, level: nat)
    returns (level': nat)
    requires Searching(g, start, maxDepth, queue, visited, open, level) && queue != []
    ensures level' == |queue[0].edges| <= maxDepth
    ensures Searching(g, start, maxDepth, queue, visited, open, level')
  {
    hide GoodEntry, Reach, Opens;
    level' := level;
    if |queue[0].edges| == level + 1 {
      QueueDeeper(g, start, queue, level);
      OpenIsDeeper(g, start, queue, open, level);
      CoversNext(g, start, visited, open, level, maxDepth);
      level' := level + 1;
    }
  }

  /** While the successors of `current` are being looked at. */
  ghost predicate Expanding(
    g: Graph, start: Ref, maxDepth: nat, current: Entry, queue: seq<Entry>, visited: set<Ref>, open: set<Ref>) {
    && GoodEntry(g, start, current)
    && GoodQueue(g, start, queue, |current.edges|)
    && Opens(queue, open)
    && Covers(g, start, visited, open + {current.node}, |current.edges|, maxDepth)
    && |current.edges| < maxDepth
    && (forall i :: 0 <= i < |queue| ==> |queue[i].edges| <= maxDepth)
  }

  lemma Take(
    g: Graph, start: Ref, maxDepth: nat, queue: seq<Entry>, visited: set<Ref>, open: set<Ref>)
    requires WfGraph(g) && queue != [] && Searching(g, start, maxDepth, queue, visited, open, |queue[0].edges|)
    ensures queue[0].node in open && queue[0].node in Reach(g, start, |queue[0].edges|) && queue[0].node in visited
    ensures |queue[0].edges| < maxDepth ==>
              Expanding(g, start, maxDepth, queue[0], queue[1..], visited, open - {queue[0].node})
    ensures |queue[0].edges| >= maxDepth ==>
              Searching(g, start, maxDepth, queue[1..], visited, open - {queue[0].node}, |queue[0].edges|)
  {
    Dequeued(g, start, queue, open, |queue[0].edges|);
    assert GoodEntry(g, start, queue[0]);
    PathReaches(g, start, queue[0].nodes, queue[0].edges);
    assert open - {queue[0].node} + {queue[0].node} == open;
  }

  /** A new node is a level deeper than the current one. */
  lemma Push(
    g: Graph, start: Ref, maxDepth: nat, current: Entry, queue: seq<Entry>, visited: set<Ref>, open: set<Ref>, k: nat)
    requires WfGraph(g) && Expanding(g, start, maxDepth, current, queue, visited, open)
    requires current.node in g && k < |g[current.node].nodes| && g[current.node].nodes[k] !in visited
    ensures var e := Extend(g, current, k);
            Expanding(g, start, maxDepth, current, queue + [e], visited + {e.node}, open + {e.node})
  {
    hide Reach, IsPath, PathTo;
    var e := Extend(g, current, k);
    ExtendedPath(g, start, current, k);
    Enqueued(g, start, queue, open, |current.edges|, e);
  }

  lemma Expanded(
    g: Graph, start: Ref, maxDepth: nat, current: Entry, queue: seq<Entry>, visited: set<Ref>, open: set<Ref>)
    requires Expanding(g, start, maxDepth, current, queue, visited, open) && Succ(g, current.node) <= visited
    ensures Searching(g, start, maxDepth, queue, visited, open, |current.edges|)
  {
  }

  lemma FoundIsShortest(
    g: Graph, start: Ref, maxDepth: nat, target: Ref, current: Entry, queue: seq<Entry>, visited: set<Ref>, open: set<Ref>,
    k: nat)
    requires WfGraph(g) && Expanding(g, start, maxDepth, current, queue, visited, open) && target !in visited
    requires current.node in g && k < |g[current.node].nodes| && g[current.node].nodes[k] == target
    ensures var e := Extend(g, current, k);
            && PathTo(g, start, target, e.nodes, e.edges) && |e.edges| <= maxDepth
            && forall nodes, edges :: PathTo(g, start, target, nodes, edges) ==> |e.edges| <= |edges|
  {
    ExtendedPath(g, start, current, k);
    NoShorterPath(g, start, target, |current.edges|);
  }

  lemma NothingFound(g: Graph, start: Ref, maxDepth: nat, target: Ref, visited: set<Ref>, open: set<Ref>, level: nat)
    requires WfGraph(g) && Searching(g, start, maxDepth, [], visited, open, level) && target !in visited
    ensures forall nodes, edges :: PathTo(g, start, target, nodes, edges) ==> |edges| > maxDepth
  {
    assert open == {};
    Exhausted(g, start, visited, level, maxDepth);
    NoShorterPath(g, start, target, maxDepth);
  }

  /** The nodes asked for their neighbours, and what that has cost. */
  ghost predicate Asked(g: Graph, start: Ref, maxDepth: nat, asked: set<Ref>, examinedEdges: nat) {
    && examinedEdges == Examined(g, asked)
    && (asked != {} ==> maxDepth > 0 && asked <= Reach(g, start, maxDepth - 1))
  }

  lemma AskOne(g: Graph, start: Ref, maxDepth: nat, asked: set<Ref>, examinedEdges: nat, x: Ref, depth: nat)
    requires Asked(g, start, maxDepth, asked, examinedEdges) && x !in asked && x in g
    requires x in Reach(g, start, depth) && depth < maxDepth
    ensures Asked(g, start, maxDepth, asked + {x}, examinedEdges + g[x].examined)
    ensures g[x].truncated || examinedEdges + g[x].examined > MAX_EXAMINED ==> BudgetReason(g, start, maxDepth - 1)
  {
    ReachGrows(g, start, depth, maxDepth - 1);
    ExaminedWithout(g, asked + {x}, x);
    assert asked + {x} - {x} == asked;
    ExaminedGrows(g, asked + {x}, Reach(g, start, maxDepth - 1));
  }

  lemma TooManyVisited(
    g: Graph, start: Ref, maxDepth: nat, current: Entry, queue: seq<Entry>, visited: set<Ref>, open: set<Ref>)
    requires Expanding(g, start, maxDepth, current, queue, visited, open)
    ensures |visited| <= |Reach(g, start, maxDepth)|
  {
    ReachGrows(g, start, |current.edges| + 1, maxDepth);
    SubsetSize(visited, Reach(g, start, maxDepth));
  }

  lemma EmptyPath(g: Graph, start: Ref)
    ensures PathTo(g, start, start, [start], [])
  {
  }

  method GraphPath(g: Graph, start: Ref, target: Ref, maxDepth: nat) returns (r: PathResult)
    requires WfGraph(g)
    ensures r.NodeMissing? <==> start !in g
    ensures r.Found? ==> PathTo(g, start, target, r.nodes, r.edges)
    ensures r.Found? ==> forall nodes, edges :: PathTo(g, start, target, nodes, edges) ==> |r.edges| <= |edges|
    ensures r.Found? ==> |r.edges| <= maxDepth
    ensures r.NotFound? ==> forall nodes, edges :: PathTo(g, start, target, nodes, edges) ==> |edges| > maxDepth
    ensures r.LimitExceeded? ==>
              && maxDepth > 0
              && (BudgetReason(g, start, maxDepth - 1) || |Reach(g, start, maxDepth)| > 2000)
    ensures r.NotFound? && maxDepth > 0 ==>
              !BudgetReason(g, start, maxDepth - 1) && |Reach(g, start, maxDepth)| <= 2000
    ensures r.Found? && |r.edges| >= 2 ==>
              !BudgetReason(g, start, |r.edges| - 2) && |Reach(g, start, |r.edges| - 1)| <= 2000
    ensures r.Found? && r.edges != [] ==> r.nodes[|r.edges| - 1] in g && !g[r.nodes[|r.edges| - 1]].truncated
  {
    hide Searching, Expanding, Asked, PathTo, Reach, BudgetReason, Answered, Affordable;
    if start !in g {
      return NodeMissing;
    }
    if start == target {
      EmptyPath(g, start);
      return Found([start], []);
    }
    var queue := [Entry(start, [start], [])];
    var visited := {start};
    var examinedEdges: nat := 0;
    ghost var level, open, asked: set<Ref> := 0, {start}, {};
    SearchStarts(g, start, maxDepth);
    NothingAsked(g, start, maxDepth);
    NothingAnswered(g, start, maxDepth);
    while queue != []
      invariant Searching(g, start, maxDepth, queue, visited, open, level)
      invariant Asked(g, start, maxDepth, asked, examinedEdges)
      invariant Affordable(g, asked) && Answered(g, start, maxDepth, asked, visited, open) && |visited| <= MAX_VISITED
      invariant target !in visited && asked <= visited <= g.Keys && asked !! open
      decreases g.Keys - visited, |queue|
    {
      level := AdvanceLevel(g, start, maxDepth, queue, visited, open, level);
      Take(g, start, maxDepth, queue, visited, open);
      var current := queue[0];
      AnsweredBelow(g, start, maxDepth, queue, visited, open, asked);
      queue, open := queue[1..], open - {current.node};
      if |current.edges| >= maxDepth {
        continue;
      }
      ghost var earlier := asked;
      AskOne(g, start, maxDepth, asked, examinedEdges, current.node, |current.edges|);
      asked := asked + {current.node};
      var neighbors := g[current.node];
      if neighbors.truncated {
        return LimitExceeded;
      }
      examinedEdges := examinedEdges + neighbors.examined;
      if examinedEdges > MAX_EXAMINED {
        return LimitExceeded;
      }
      AffordOne(g, start, maxDepth, earlier, asked, current.node, examinedEdges);
      ghost var before, rest := visited, queue;
      for index := 0 to |neighbors.nodes|
        invariant Expanding(g, start, maxDepth, current, queue, visited, open)
        invariant forall k :: 0 <= k < index ==> neighbors.nodes[k] in visited
        invariant target !in visited && before <= visited <= g.Keys && asked !! open
        invariant asked <= visited && |visited| <= MAX_VISITED
        invariant Answered(g, start, maxDepth, asked, visited, open)
        invariant visited == before ==> queue == rest
      {
        var next := neighbors.nodes[index];
        if next in visited {
          continue;
        }
        var e := Extend(g, current, index);
        if next == target {
          FoundIsShortest(g, start, maxDepth, target, current, queue, visited, open, index);
          FoundInBudget(g, start, maxDepth, current, earlier, visited, queue, open);
          return Found(e.nodes, e.edges);
        }
        Push(g, start, maxDepth, current, queue, visited, open, index);
        AnsweredMore(g, start, maxDepth, asked, visited, open, next);
        visited := visited + {next};
        queue := queue + [e];
        open := open + {next};
        if |visited| > MAX_VISITED {
          TooManyVisited(g, start, maxDepth, current, queue, visited, open);
          return LimitExceeded;
        }
      }
      Expanded(g, start, maxDepth, current, queue, visited, open);
    }
    NothingFound(g, start, maxDepth, target, visited, open, level);
    NotFoundInBudget(g, start, maxDepth, asked, visited, open, level, examinedEdges);
    r := NotFound;
  }

  /** Nothing asked so far was cut off, and all of it fits the budget. */
  ghost predicate Affordable(g: Graph, asked: set<Ref>) {
    (forall x :: x in asked && x in g ==> !g[x].truncated) && Examined(g, asked) <= MAX_EXAMINED
  }

  /** Whoever has been visited is asked, still queued, or as far away as the search may go. */
  ghost predicate Answered(g: Graph, start: Ref, maxDepth: nat, asked: set<Ref>, visited: set<Ref>, open: set<Ref>) {
    forall x :: x in visited && x !in asked && x !in open && maxDepth > 0 ==> x !in Reach(g, start, maxDepth - 1)
  }

  lemma NothingAnswered(g: Graph, start: Ref, maxDepth: nat)
    ensures Affordable(g, {}) && Answered(g, start, maxDepth, {}, {start}, {start})
  {
  }

  lemma AnsweredMore(g: Graph, start: Ref, maxDepth: nat, asked: set<Ref>, visited: set<Ref>, open: set<Ref>, x: Ref)
    requires Answered(g, start, maxDepth, asked, visited, open)
    ensures Answered(g, start, maxDepth, asked, visited + {x}, open + {x})
  {
  }

  /**
    When the front of the queue is taken, everything nearer has been asked; and the front may leave
    the queue, either to be asked or because it is as far as the search may go.
   */
  lemma AnsweredBelow(
    g: Graph, start: Ref, maxDepth: nat, queue: seq<Entry>, visited: set<Ref>, open: set<Ref>, asked: set<Ref>)
    requires queue != [] && Searching(g, start, maxDepth, queue, visited, open, |queue[0].edges|)
    requires Answered(g, start, maxDepth, asked, visited, open)
    ensures var current := queue[0];
            && Answered(g, start, maxDepth, asked + {current.node}, visited, open - {current.node})
            && (|current.edges| >= maxDepth ==> Answered(g, start, maxDepth, asked, visited, open - {current.node}))
            && (0 < |current.edges| <= maxDepth ==> Reach(g, start, |current.edges| - 1) <= asked)
            && Reach(g, start, |current.edges|) <= visited
  {
    var current := queue[0];
    var n := |current.edges|;
    assert GoodEntry(g, start, current);
    if 0 < n <= maxDepth {
      NearerAsked(g, start, maxDepth, queue, visited, open, asked, n);
    }
  }

  lemma NearerAsked(
    g: Graph, start: Ref, maxDepth: nat, queue: seq<Entry>, visited: set<Ref>, open: set<Ref>, asked: set<Ref>, n: nat)
    requires 0 < n <= maxDepth && Reach(g, start, n) <= visited && Answered(g, start, maxDepth, asked, visited, open)
    requires Opens(queue, open)
    requires forall i :: 0 <= i < |queue| ==> GoodEntry(g, start, queue[i]) && |queue[i].edges| >= n
    ensures Reach(g, start, n - 1) <= asked
  {
    hide PathTo;
    ReachGrows(g, start, n - 1, n);
    ReachGrows(g, start, n - 1, maxDepth - 1);
    forall i | 0 <= i < |queue| ensures Reach(g, start, n - 1) <= Reach(g, start, |queue[i].edges| - 1) {
      ReachGrows(g, start, n - 1, |queue[i].edges| - 1);
    }
    hide Reach;
    forall x | x in open ensures x !in Reach(g, start, n - 1) {
      var i :| 0 <= i < |queue| && queue[i].node == x;
      assert GoodEntry(g, start, queue[i]) && Reach(g, start, n - 1) <= Reach(g, start, |queue[i].edges| - 1);
    }
  }

  lemma InBudget(g: Graph, start: Ref, n: nat, asked: set<Ref>)
    requires Reach(g, start, n) <= asked && Affordable(g, asked)
    ensures !BudgetReason(g, start, n)
  {
    ExaminedGrows(g, Reach(g, start, n), asked);
  }

  lemma AffordOne(
    g: Graph, start: Ref, maxDepth: nat, earlier: set<Ref>, asked: set<Ref>, x: Ref, examinedEdges: nat)
    requires Affordable(g, earlier) && asked == earlier + {x} && x in g && !g[x].truncated
    requires Asked(g, start, maxDepth, asked, examinedEdges) && examinedEdges <= MAX_EXAMINED
    ensures Affordable(g, asked)
  {
  }

  /** The answers behind a found path were complete, up to the level before the last. */
  lemma FoundInBudget(
    g: Graph, start: Ref, maxDepth: nat, current: Entry, earlier: set<Ref>, visited: set<Ref>, queue: seq<Entry>, open: set<Ref>)
    requires Expanding(g, start, maxDepth, current, queue, visited, open) && |visited| <= MAX_VISITED
    requires Affordable(g, earlier) && (|current.edges| > 0 ==> Reach(g, start, |current.edges| - 1) <= earlier)
    ensures |current.edges| > 0 ==> !BudgetReason(g, start, |current.edges| - 1)
    ensures |Reach(g, start, |current.edges|)| <= MAX_VISITED
    ensures |current.nodes| == |current.edges| + 1 && current.nodes[|current.edges|] == current.node
  {
    SubsetSize(Reach(g, start, |current.edges|), visited);
    if |current.edges| > 0 {
      InBudget(g, start, |current.edges| - 1, earlier);
    }
  }

  /** A search that ends without a path was never cut off. */
  lemma NotFoundInBudget(
    g: Graph, start: Ref, maxDepth: nat, asked: set<Ref>, visited: set<Ref>, open: set<Ref>, level: nat, examinedEdges: nat)
    requires Searching(g, start, maxDepth, [], visited, open, level) && Affordable(g, asked) && |visited| <= MAX_VISITED
    requires Answered(g, start, maxDepth, asked, visited, open)
    ensures maxDepth > 0 ==> !BudgetReason(g, start, maxDepth - 1) && |Reach(g, start, maxDepth)| <= MAX_VISITED
  {
    assert open == {};
    Exhausted(g, start, visited, level, maxDepth);
    hide Searching, Examined, BudgetReason, Affordable;
    SubsetSize(Reach(g, start, maxDepth), visited);
    if maxDepth > 0 {
      ReachGrows(g, start, maxDepth - 1, maxDepth);
      InBudget(g, start, maxDepth - 1, asked);
    }
  }

  lemma NothingAsked(g: Graph, start: Ref, maxDepth: nat)
    ensures Asked(g, start, maxDepth, {}, 0)
  {
  }

  // ---------------------------------------------------------------- graphSubgraph

  datatype Subgraph =
    | Subgraph(nodes: seq<Ref>, edges: seq<Edge>, truncated: bool)
    | StartMissing

  /** A tree grown from its first node: edge `i` brings in node `i + 1` from an earlier node. */
  ghost predicate IsTree(g: Graph, start: Ref, nodes: seq<Ref>, edges: seq<Edge>) {
    && |nodes| == |edges| + 1
    && nodes[0] == start
    && Distinct(nodes)
    && forall i :: 0 <= i < |edges| ==> GrownFrom(g, nodes[..i + 1], edges[i], nodes[i + 1])
  }

  ghost predicate GrownFrom(g: Graph, earlier: seq<Ref>, e: Edge, node: Ref) {
    e.source in earlier && e.source in g && e in g[e.source].edges && e.target == node
  }

  lemma TreeGrows(g: Graph, start: Ref, nodes: seq<Ref>, edges: seq<Edge>, from: Ref, k: nat)
    requires WfGraph(g) && IsTree(g, start, nodes, edges)
    requires from in nodes && from in g && k < |g[from].nodes| && g[from].nodes[k] !in nodes
    ensures IsTree(g, start, nodes + [g[from].nodes[k]], edges + [g[from].edges[k]])
  {
    var nodes', edges' := nodes + [g[from].nodes[k]], edges + [g[from].edges[k]];
    forall i | 0 <= i < |edges'| ensures GrownFrom(g, nodes'[..i + 1], edges'[i], nodes'[i + 1]) {
      assert nodes'[..i + 1] == nodes[..i + 1];
      if i < |edges| {
        assert GrownFrom(g, nodes[..i + 1], edges[i], nodes[i + 1]);
      } else {
        assert nodes[..i + 1] == nodes;
      }
    }
  }

  /** The start is reported whatever the limit. */
  function AtLeastOne(nodeLimit: nat): nat {
    if nodeLimit == 0 then 1 else nodeLimit
  }

  /** Why a subgraph is reported truncated. */
  ghost predicate TruncationReason(g: Graph, start: Ref, maxDepth: nat, nodeLimit: nat) {
    && maxDepth > 0
    && (BudgetReason(g, start, maxDepth - 1) || |Reach(g, start, maxDepth)| > AtLeastOne(nodeLimit))
  }

  /** Every node before `done` has its successors among the nodes. */
  ghost predicate ClosedUpTo(g: Graph, nodes: seq<Ref>, done: nat) {
    forall k :: 0 <= k < done && k < |nodes| ==> Succ(g, nodes[k]) <= Elements(nodes)
  }

  /** The nodes after `depth` levels, the frontier being those from `done` on. */
  ghost predicate LevelInv(g: Graph, start: Ref, depth: nat, nodes: seq<Ref>, done: nat, truncated: bool) {
    && done <= |nodes|
    && Elements(nodes) <= Reach(g, start, depth)
    && (!truncated ==> Elements(nodes) == Reach(g, start, depth) && ClosedUpTo(g, nodes, done))
    && (!truncated && depth > 0 ==> Elements(nodes[..done]) == Reach(g, start, depth - 1))
  }

  /** Within a level: the frontier is nodes[..mid] from its start, `done` of them looked at. */
  ghost predicate GrowInv(
    g: Graph, start: Ref, depth: nat, nodes: seq<Ref>, done: nat, mid: nat, truncated: bool) {
    && done <= mid <= |nodes|
    && Elements(nodes) <= Reach(g, start, depth + 1)
    && Elements(nodes[..mid]) <= Reach(g, start, depth)
    && (!truncated ==> Elements(nodes[..mid]) == Reach(g, start, depth) && ClosedUpTo(g, nodes, done))
  }

  lemma LevelBegins(g: Graph, start: Ref, depth: nat, nodes: seq<Ref>, done: nat, truncated: bool)
    requires LevelInv(g, start, depth, nodes, done, truncated)
    ensures GrowInv(g, start, depth, nodes, done, |nodes|, truncated)
  {
    ReachGrows(g, start, depth, depth + 1);
    assert nodes[..|nodes|] == nodes;
  }

  lemma LevelEnds(g: Graph, start: Ref, depth: nat, nodes: seq<Ref>, mid: nat, truncated: bool)
    requires GrowInv(g, start, depth, nodes, mid, mid, truncated)
    ensures LevelInv(g, start, depth + 1, nodes, mid, truncated)
  {
    if !truncated {
      assert Elements(nodes[..mid]) <= Elements(nodes);
      forall x | x in Reach(g, start, depth) ensures Succ(g, x) <= Elements(nodes) {
        assert x in nodes[..mid];
        var k :| 0 <= k < mid && nodes[k] == x;
      }
      NextLevel(g, start, depth, Elements(nodes));
    }
  }

  lemma NodeAdded(
    g: Graph, start: Ref, depth: nat, nodes: seq<Ref>, done: nat, mid: nat, truncated: bool, next: Ref)
    requires GrowInv(g, start, depth, nodes, done, mid, truncated) && done < mid
    requires next in Succ(g, nodes[done])
    ensures GrowInv(g, start, depth, nodes + [next], done, mid, truncated)
    ensures next in Reach(g, start, depth + 1)
  {
    assert nodes[done] in Elements(nodes[..mid]);
    StepReaches(g, start, depth, nodes[done], next);
    assert (nodes + [next])[..mid] == nodes[..mid];
    assert Elements(nodes + [next]) == Elements(nodes) + {next};
  }

  lemma NodeDone(g: Graph, start: Ref, depth: nat, nodes: seq<Ref>, done: nat, mid: nat, truncated: bool)
    requires GrowInv(g, start, depth, nodes, done, mid, truncated) && done < mid
    requires !truncated ==> Succ(g, nodes[done]) <= Elements(nodes)
    ensures GrowInv(g, start, depth, nodes, done + 1, mid, truncated)
  {
  }

  lemma GrowTruncated(g: Graph, start: Ref, depth: nat, nodes: seq<Ref>, done: nat, mid: nat, truncated: bool)
    requires GrowInv(g, start, depth, nodes, done, mid, truncated)
    ensures GrowInv(g, start, depth, nodes, done, mid, true)
  {
  }

  lemma LimitReason(g: Graph, start: Ref, depth: nat, maxDepth: nat, nodes: seq<Ref>, next: Ref, nodeLimit: nat)
    requires Distinct(nodes) && Elements(nodes) <= Reach(g, start, depth + 1) && depth < maxDepth
    requires next !in nodes && next in Reach(g, start, depth + 1) && |nodes| >= nodeLimit && nodes != []
    ensures TruncationReason(g, start, maxDepth, nodeLimit)
  {
    UniqueCount(nodes);
    ReachGrows(g, start, depth + 1, maxDepth);
    SubsetSize(Elements(nodes) + {next}, Reach(g, start, maxDepth));
  }

  /** The frontier ran dry or the depth was reached. */
  lemma LevelsDone(g: Graph, start: Ref, depth: nat, maxDepth: nat, nodes: seq<Ref>, done: nat, truncated: bool)
    requires LevelInv(g, start, depth, nodes, done, truncated) && depth <= maxDepth
    requires depth == maxDepth || done == |nodes|
    ensures Elements(nodes) <= Reach(g, start, maxDepth)
    ensures !truncated ==> Elements(nodes) == Reach(g, start, maxDepth)
    ensures !truncated && maxDepth > 0 ==> Reach(g, start, maxDepth - 1) <= Elements(nodes[..done])
  {
    hide ClosedUpTo, Reach;
    ReachGrows(g, start, depth, maxDepth);
    if !truncated && depth < maxDepth {
      ReachGrows(g, start, maxDepth - 1, maxDepth);
      assert nodes[..done] == nodes;
      AllClosed(g, start, depth, maxDepth, nodes);
    }
  }

  lemma AllClosed(g: Graph, start: Ref, depth: nat, maxDepth: nat, nodes: seq<Ref>)
    requires ClosedUpTo(g, nodes, |nodes|) && Elements(nodes) == Reach(g, start, depth) && depth <= maxDepth
    ensures Elements(nodes) == Reach(g, start, maxDepth)
  {
    ReachGrows(g, start, depth, maxDepth);
    forall x | x in Elements(nodes) ensures Succ(g, x) <= Elements(nodes) {
      var k :| 0 <= k < |nodes| && nodes[k] == x;
    }
    ClosedHoldsReach(g, start, depth, Elements(nodes), maxDepth);
  }

  lemma TreeStarts(g: Graph, start: Ref)
    ensures IsTree(g, start, [start], []) && LevelInv(g, start, 0, [start], 0, false)
    ensures Elements([start]) == {start} && Elements<Ref>([]) == {}
  {
  }

  /** The neighbours of one node: bring in the new ones while there is room. */
  method TakeNeighbors(
    g: Graph, ghost start: Ref, ghost depth: nat, ghost maxDepth: nat, current: Ref, ghost done: nat, ghost mid: nat,
    nodes0: seq<Ref>, edges0: seq<Edge>, visited0: set<Ref>, nextFrontier0: seq<Ref>, truncated0: bool, nodeLimit: nat)
    returns (nodes: seq<Ref>, edges: seq<Edge>, visited: set<Ref>, nextFrontier: seq<Ref>, truncated: bool)
    requires WfGraph(g) && done < mid <= |nodes0| && nodes0[done] == current && current in g && depth < maxDepth
    requires IsTree(g, start, nodes0, edges0) && visited0 == Elements(nodes0) <= g.Keys && nextFrontier0 == nodes0[mid..]
    requires GrowInv(g, start, depth, nodes0, done, mid, truncated0)
    requires |nodes0| <= nodeLimit || |nodes0| == 1
    requires truncated0 ==> TruncationReason(g, start, maxDepth, nodeLimit)
    ensures nodes0 <= nodes && nextFrontier == nodes[mid..] && (truncated0 ==> truncated)
    ensures IsTree(g, start, nodes, edges) && visited == Elements(nodes) <= g.Keys
    ensures GrowInv(g, start, depth, nodes, done, mid, truncated)
    ensures |nodes| <= nodeLimit || |nodes| == 1
    ensures truncated ==> TruncationReason(g, start, maxDepth, nodeLimit)
    ensures !truncated ==> forall k :: 0 <= k < |g[current].nodes| ==> g[current].nodes[k] in visited
  {
    hide IsTree, LevelInv, GrowInv, Asked, Reach, TruncationReason, BudgetReason, Elements, Succ, WfGraph;
    NeighborsMatch(g, current);
    nodes, edges, visited, nextFrontier, truncated := nodes0, edges0, visited0, nextFrontier0, truncated0;
    var neighbors := g[current];
    for index := 0 to |neighbors.nodes|
      invariant IsTree(g, start, nodes, edges) && visited == Elements(nodes) <= g.Keys
      invariant nodes0 <= nodes && nextFrontier == nodes[mid..] && (truncated0 ==> truncated)
      invariant GrowInv(g, start, depth, nodes, done, mid, truncated)
      invariant |nodes| <= nodeLimit || |nodes| == 1
      invariant truncated ==> TruncationReason(g, start, maxDepth, nodeLimit)
      invariant !truncated ==> forall k :: 0 <= k < index ==> neighbors.nodes[k] in visited
    {
      var next := neighbors.nodes[index];
      var edge := neighbors.edges[index];
      if next in visited {
        continue;
      }
      if |nodes| >= nodeLimit {
        Refuse(g, start, depth, maxDepth, nodes, edges, done, mid, truncated, index, nodeLimit);
        truncated := true;
        continue;
      }
      Bring(g, start, depth, nodes, edges, done, mid, truncated, index);
      assert (nodes + [next])[mid..] == nodes[mid..] + [next];
      visited := visited + {next};
      nodes := nodes + [next];
      edges := edges + [edge];
      nextFrontier := nextFrontier + [next];
    }
  }

  lemma NeighborsMatch(g: Graph, n: Ref)
    requires WfGraph(g) && n in g
    ensures |g[n].edges| == |g[n].nodes|
  {
  }

  method GraphSubgraph(g: Graph, start: Ref, maxDepth: nat, nodeLimit: nat) returns (r: Subgraph)
    requires WfGraph(g)
    ensures r.StartMissing? <==> start !in g
    ensures r.Subgraph? ==> IsTree(g, start, r.nodes, r.edges)
    ensures r.Subgraph? ==> |r.nodes| <= nodeLimit || |r.nodes| == 1
    ensures r.Subgraph? ==> Elements(r.nodes) <= Reach(g, start, maxDepth)
    ensures r.Subgraph? && !r.truncated ==> Elements(r.nodes) == Reach(g, start, maxDepth)
    ensures r.Subgraph? ==> (r.truncated <==> TruncationReason(g, start, maxDepth, nodeLimit))
  {
    hide Affordable, IsTree, LevelInv, GrowInv, Asked, Reach, TruncationReason, BudgetReason, Elements, Succ;
    if start !in g {
      return StartMissing;
    }
    var nodes, edges := [start], [];
    var visited := {start};
    var frontier := [start];
    var truncated, budgetExhausted := false, false;
    var examinedEdges: nat := 0;
    var depth: nat := 0;
    ghost var done: nat := 0;
    TreeStarts(g, start);
    NothingAsked(g, start, maxDepth);
    assert nodes[..0] == [];
    NothingAnswered(g, start, maxDepth);
    while depth < maxDepth && frontier != []
      invariant IsTree(g, start, nodes, edges) && visited == Elements(nodes) <= g.Keys
      invariant depth <= maxDepth && done <= |nodes| && frontier == nodes[done..]
      invariant LevelInv(g, start, depth, nodes, done, truncated)
      invariant Asked(g, start, maxDepth, Elements(nodes[..done]), examinedEdges)
      invariant |nodes| <= nodeLimit || |nodes| == 1
      invariant truncated ==> TruncationReason(g, start, maxDepth, nodeLimit)
      invariant !truncated ==> Affordable(g, Elements(nodes[..done]))
      decreases maxDepth - depth
    {
      var nextFrontier: seq<Ref> := [];
      ghost var first, mid := done, |nodes|;
      LevelBegins(g, start, depth, nodes, done, truncated);
      for i := 0 to |frontier|
        invariant IsTree(g, start, nodes, edges) && visited == Elements(nodes) <= g.Keys
        invariant done == first + i && mid == first + |frontier| <= |nodes|
        invariant frontier == nodes[first..mid] && nextFrontier == nodes[mid..]
        invariant GrowInv(g, start, depth, nodes, done, mid, truncated)
        invariant Asked(g, start, maxDepth, Elements(nodes[..done]), examinedEdges)
        invariant |nodes| <= nodeLimit || |nodes| == 1
        invariant truncated ==> TruncationReason(g, start, maxDepth, nodeLimit)
        invariant !truncated ==> Affordable(g, Elements(nodes[..done]))
        invariant !budgetExhausted
      {
        var current := frontier[i];
        assert current == nodes[done];
        CurrentIsNew(g, start, depth, nodes, edges, done, mid, truncated);
        AskOne(g, start, maxDepth, Elements(nodes[..done]), examinedEdges, current, depth);
        ReasonFromBudget(g, start, maxDepth, nodeLimit);
        var neighbors := g[current];
        if neighbors.truncated {
          GrowTruncated(g, start, depth, nodes, done, mid, truncated);
          truncated := true;
        }
        examinedEdges := examinedEdges + neighbors.examined;
        if examinedEdges > MAX_EXAMINED {
          GrowWithin(g, start, depth, maxDepth, nodes, done, mid, truncated);
          truncated, budgetExhausted := true, true;
          break;
        }
        ghost var before := nodes;
        nodes, edges, visited, nextFrontier, truncated :=
          TakeNeighbors(g, start, depth, maxDepth, current, done, mid, nodes, edges, visited, nextFrontier, truncated, nodeLimit);
        PrefixSlices(before, nodes, first, mid, done);
        CurrentDone(g, start, depth, nodes, done, mid, truncated);
        if !truncated {
          AffordOne(g, start, maxDepth, Elements(nodes[..done]), Elements(nodes[..done]) + {current}, current, examinedEdges);
        }
        done := done + 1;
      }
      if budgetExhausted {
        return Subgraph(nodes, edges, truncated);
      }
      LevelEnds(g, start, depth, nodes, mid, truncated);
      depth := depth + 1;
      frontier := nextFrontier;
    }
    LevelsDone(g, start, depth, maxDepth, nodes, done, truncated);
    if !truncated {
      TreeIsDistinct(g, start, nodes, edges);
      NotTruncated(g, start, maxDepth, nodes, done, nodeLimit);
    }
    r := Subgraph(nodes, edges, truncated);
  }

  /** Nothing was cut off, and everything in reach is there. */
  lemma NotTruncated(g: Graph, start: Ref, maxDepth: nat, nodes: seq<Ref>, done: nat, nodeLimit: nat)
    requires done <= |nodes| && Distinct(nodes) && Elements(nodes) == Reach(g, start, maxDepth)
    requires |nodes| <= nodeLimit || |nodes| == 1
    requires maxDepth > 0 ==> Reach(g, start, maxDepth - 1) <= Elements(nodes[..done])
    requires Affordable(g, Elements(nodes[..done]))
    ensures !TruncationReason(g, start, maxDepth, nodeLimit)
  {
    UniqueCount(nodes);
    if maxDepth > 0 {
      hide Reach, Distinct, Elements, BudgetReason, Affordable;
      InBudget(g, start, maxDepth - 1, Elements(nodes[..done]));
    }
  }

  lemma PrefixSlices(before: seq<Ref>, nodes: seq<Ref>, first: nat, mid: nat, done: nat)
    requires before <= nodes && first <= mid <= |before| && done <= |before|
    ensures nodes[first..mid] == before[first..mid] && nodes[..done] == before[..done]
  {
    assert before == nodes[..|before|];
  }

  lemma TreeIsDistinct(g: Graph, start: Ref, nodes: seq<Ref>, edges: seq<Edge>)
    requires IsTree(g, start, nodes, edges)
    ensures Distinct(nodes)
  {
  }

  lemma CurrentIsNew(
    g: Graph, start: Ref, depth: nat, nodes: seq<Ref>, edges: seq<Edge>, done: nat, mid: nat, truncated: bool)
    requires IsTree(g, start, nodes, edges) && GrowInv(g, start, depth, nodes, done, mid, truncated) && done < mid
    ensures nodes[done] !in Elements(nodes[..done]) && nodes[done] in Reach(g, start, depth)
    ensures nodes[done] in Elements(nodes)
  {
    assert nodes[done] in Elements(nodes[..mid]);
  }

  /** One neighbour brought in, or refused for the limit. */
  lemma Bring(
    g: Graph, start: Ref, depth: nat, nodes: seq<Ref>, edges: seq<Edge>, done: nat, mid: nat, truncated: bool, k: nat)
    requires WfGraph(g) && IsTree(g, start, nodes, edges) && GrowInv(g, start, depth, nodes, done, mid, truncated)
    requires done < mid && nodes[done] in g && k < |g[nodes[done]].nodes| && g[nodes[done]].nodes[k] !in Elements(nodes)
    ensures var next := g[nodes[done]].nodes[k];
            && IsTree(g, start, nodes + [next], edges + [g[nodes[done]].edges[k]])
            && GrowInv(g, start, depth, nodes + [next], done, mid, truncated)
            && Elements(nodes + [next]) == Elements(nodes) + {next}
            && next in g
  {
    var next := g[nodes[done]].nodes[k];
    assert next in Succ(g, nodes[done]);
    NodeAdded(g, start, depth, nodes, done, mid, truncated, next);
    TreeGrows(g, start, nodes, edges, nodes[done], k);
  }

  lemma Refuse(
    g: Graph, start: Ref, depth: nat, maxDepth: nat, nodes: seq<Ref>, edges: seq<Edge>, done: nat, mid: nat,
    truncated: bool, k: nat, nodeLimit: nat)
    requires WfGraph(g) && IsTree(g, start, nodes, edges) && GrowInv(g, start, depth, nodes, done, mid, truncated)
    requires done < mid && nodes[done] in g && k < |g[nodes[done]].nodes| && g[nodes[done]].nodes[k] !in Elements(nodes)
    requires depth < maxDepth && |nodes| >= nodeLimit
    ensures GrowInv(g, start, depth, nodes, done, mid, true)
    ensures TruncationReason(g, start, maxDepth, nodeLimit)
  {
    var next := g[nodes[done]].nodes[k];
    assert next in Succ(g, nodes[done]);
    NodeAdded(g, start, depth, nodes, done, mid, truncated, next);
    LimitReason(g, start, depth, maxDepth, nodes, next, nodeLimit);
  }

  /** The current node's neighbours are all in. */
  lemma CurrentDone(g: Graph, start: Ref, depth: nat, nodes: seq<Ref>, done: nat, mid: nat, truncated: bool)
    requires GrowInv(g, start, depth, nodes, done, mid, truncated) && done < mid && nodes[done] in g
    requires !truncated ==> forall k :: 0 <= k < |g[nodes[done]].nodes| ==> g[nodes[done]].nodes[k] in Elements(nodes)
    ensures GrowInv(g, start, depth, nodes, done + 1, mid, truncated)
    ensures Elements(nodes[..done + 1]) == Elements(nodes[..done]) + {nodes[done]}
  {
    NodeDone(g, start, depth, nodes, done, mid, truncated);
    assert nodes[..done + 1] == nodes[..done] + [nodes[done]];
    ElementsSnoc(nodes[..done], nodes[done]);
  }

  lemma GrowWithin(
    g: Graph, start: Ref, depth: nat, maxDepth: nat, nodes: seq<Ref>, done: nat, mid: nat, truncated: bool)
    requires GrowInv(g, start, depth, nodes, done, mid, truncated) && depth < maxDepth
    ensures Elements(nodes) <= Reach(g, start, maxDepth)
  {
    ReachGrows(g, start, depth + 1, maxDepth);
  }

  lemma ReasonFromBudget(g: Graph, start: Ref, maxDepth: nat, nodeLimit: nat)
    ensures maxDepth > 0 && BudgetReason(g, start, maxDepth - 1) ==> TruncationReason(g, start, maxDepth, nodeLimit)
  {
  }
}

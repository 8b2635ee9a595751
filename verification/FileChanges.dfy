/**
  The incremental aggregate of file changes: one record per project, session and file, updated
  from batches that usually repeat what was read before. Times are milliseconds.
 */
module FileChanges {
  import opened Prelude

  datatype Key = Key(project: string, session: string, path: string)

  datatype Change = Change(key: Key, tool: string, at: int)

  datatype Record = Record(tool: string, count: nat, first: int, last: int)

  /** One entry of `grouped`. */
  datatype Group = Group(times: seq<int>, latest: int, tool: string)

  type Store = map<Key, Record>

  function Get(store: Store, k: Key): Option<Record> {
    if k in store then Some(store[k]) else None
  }

  // ---------------------------------------------------------------- what a batch says about one key

  function Times(changes: seq<Change>, k: Key): seq<int> {
    if changes == [] then []
    else
      var n := |changes| - 1;
      if changes[n].key == k then Times(changes[..n], k) + [changes[n].at] else Times(changes[..n], k)
  }

  /** The change that names the tool: the first among the newest ones. */
  function Newest(changes: seq<Change>, k: Key): Option<Change> {
    if changes == [] then None
    else
      var n := |changes| - 1;
      var before := Newest(changes[..n], k);
      if changes[n].key == k && (before.None? || changes[n].at > before.value.at) then Some(changes[n]) else before
  }

  function Keys(changes: seq<Change>): set<Key> {
    set c | c in changes :: c.key
  }

  function MaxOf(times: seq<int>): int
    requires times != []
  {
    var n := |times| - 1;
    if n == 0 then times[0] else if MaxOf(times[..n]) > times[n] then MaxOf(times[..n]) else times[n]
  }

  function MinOf(times: seq<int>): int
    requires times != []
  {
    var n := |times| - 1;
    if n == 0 then times[0] else if MinOf(times[..n]) < times[n] then MinOf(times[..n]) else times[n]
  }

  predicate Newer(at: int, stored: Option<Record>) {
    stored.None? || at > stored.value.last
  }

  /** `observedAts.filter(...).length` */
  function CountNewer(times: seq<int>, stored: Option<Record>): nat {
    if times == [] then 0
    else
      var n := |times| - 1;
      CountNewer(times[..n], stored) + if Newer(times[n], stored) then 1 else 0
  }

  /** The record after one group has been merged into what was stored. */
  function Merged(stored: Option<Record>, times: seq<int>, tool: string): Option<Record> {
    if times == [] then stored
    else
      var more := CountNewer(times, stored);
      match stored
      case None => Some(Record(tool, more, MinOf(times), MaxOf(times)))
      case Some(r) =>
        if more == 0 then stored else Some(Record(tool, r.count + more, r.first, MaxOf(times + [r.last])))
  }

  function ToolOf(changes: seq<Change>, k: Key): string {
    match Newest(changes, k)
    case None => ""
    case Some(c) => c.tool
  }

  function After(stored: Option<Record>, changes: seq<Change>, k: Key): Option<Record> {
    Merged(stored, Times(changes, k), ToolOf(changes, k))
  }

  /** The whole store after one batch. */
  ghost predicate Projects(before: Store, changes: seq<Change>, after: Store) {
    forall k :: Get(after, k) == After(Get(before, k), changes, k)
  }

  ghost function Changed(before: Store, after: Store, keys: set<Key>): set<Key> {
    set k | k in keys && Get(after, k) != Get(before, k)
  }

  // ---------------------------------------------------------------- facts about times

  lemma {:induction false} MaxIsMax(times: seq<int>)
    requires times != []
    ensures MaxOf(times) in times && forall t :: t in times ==> t <= MaxOf(times)
  {
    var n := |times| - 1;
    if n > 0 {
      MaxIsMax(times[..n]);
      forall t | t in times ensures t in times[..n] || t == times[n] {
        assert times == times[..n] + [times[n]];
      }
    }
  }

  lemma {:induction false} MinIsMin(times: seq<int>)
    requires times != []
    ensures MinOf(times) in times && forall t :: t in times ==> MinOf(times) <= t
  {
    var n := |times| - 1;
    if n > 0 {
      MinIsMin(times[..n]);
      forall t | t in times ensures t in times[..n] || t == times[n] {
        assert times == times[..n] + [times[n]];
      }
    }
  }

  lemma {:induction false} CountIsNone(times: seq<int>, stored: Option<Record>)
    ensures CountNewer(times, stored) == 0 <==> forall t :: t in times ==> !Newer(t, stored)
    ensures CountNewer(times, stored) <= |times|
    ensures CountNewer(times, stored) == |times| <==> forall t :: t in times ==> Newer(t, stored)
  {
    if times != [] {
      var n := |times| - 1;
      assert times == times[..n] + [times[n]];
      CountIsNone(times[..n], stored);
    }
  }

  lemma {:induction false} CountConcat(a: seq<int>, b: seq<int>, stored: Option<Record>)
    ensures CountNewer(a + b, stored) == CountNewer(a, stored) + CountNewer(b, stored)
  {
    if b == [] {
      assert a + b == a;
    } else {
      var n := |b| - 1;
      assert (a + b)[..|a + b| - 1] == a + b[..n];
      CountConcat(a, b[..n], stored);
    }
  }

  /** A later threshold counts no more, and the same exactly when it excludes nothing further. */
  lemma {:induction false} CountLater(times: seq<int>, early: Option<Record>, late: Option<Record>)
    requires late.Some? && (early.Some? ==> early.value.last <= late.value.last)
    ensures CountNewer(times, late) <= CountNewer(times, early)
    ensures CountNewer(times, late) == CountNewer(times, early) <==> forall t :: t in times && Newer(t, early) ==> Newer(t, late)
  {
    if times != [] {
      var n := |times| - 1;
      assert times == times[..n] + [times[n]];
      CountLater(times[..n], early, late);
    }
  }

  lemma {:induction false} TimesConcat(a: seq<Change>, b: seq<Change>, k: Key)
    ensures Times(a + b, k) == Times(a, k) + Times(b, k)
  {
    if b == [] {
      assert a + b == a;
    } else {
      var n := |b| - 1;
      assert (a + b)[..|a + b| - 1] == a + b[..n];
      TimesConcat(a, b[..n], k);
    }
  }

  /** The tool comes from a change of this key that no other one postdates. */
  lemma {:induction false} NewestIsNewest(changes: seq<Change>, k: Key)
    ensures Newest(changes, k).None? <==> Times(changes, k) == []
    ensures Times(changes, k) != [] ==>
              var c := Newest(changes, k).value;
              c in changes && c.key == k && c.at == MaxOf(Times(changes, k))
  {
    if changes != [] {
      var n := |changes| - 1;
      var front := Times(changes[..n], k);
      NewestIsNewest(changes[..n], k);
      if changes[n].key == k {
        assert (front + [changes[n].at])[..|front|] == front;
      }
    }
  }

  /** Later changes only replace the tool if one of them is strictly newer. */
  lemma {:induction false} NewestKept(a: seq<Change>, b: seq<Change>, k: Key)
    requires Times(a, k) != [] && forall t :: t in Times(b, k) ==> t <= MaxOf(Times(a, k))
    ensures Newest(a + b, k) == Newest(a, k)
  {
    NewestIsNewest(a, k);
    if b == [] {
      assert a + b == a;
    } else {
      var n := |b| - 1;
      assert (a + b)[..|a + b| - 1] == a + b[..n];
      assert (a + b)[|a + b| - 1] == b[n];
      var front := Times(b[..n], k);
      assert Times(b, k) == if b[n].key == k then front + [b[n].at] else front;
      forall t | t in front ensures t in Times(b, k) {
      }
      assert b[n].key == k ==> b[n].at in front + [b[n].at];
      NewestKept(a, b[..n], k);
    }
  }

  lemma {:induction false} TimesEmpty(changes: seq<Change>, k: Key)
    ensures Times(changes, k) == [] <==> k !in Keys(changes)
  {
    if changes != [] {
      var n := |changes| - 1;
      assert changes == changes[..n] + [changes[n]];
      assert Keys(changes) == Keys(changes[..n]) + {changes[n].key};
      TimesEmpty(changes[..n], k);
    }
  }

  // ---------------------------------------------------------------- the merged record

  function Later(stored: Option<Record>, times: seq<int>): int
    requires times != []
  {
    if stored.Some? && stored.value.last > MaxOf(times) then stored.value.last else MaxOf(times)
  }

  /** The last time is the newest ever seen, the first time the oldest of the first batch. */
  lemma MergedTimes(stored: Option<Record>, times: seq<int>, tool: string)
    requires times != []
    ensures var r := Merged(stored, times, tool);
            r.Some? && r.value.last == Later(stored, times)
            && r.value.first == (if stored.Some? then stored.value.first else MinOf(times))
            && r.value.count == (if stored.Some? then stored.value.count else 0) + CountNewer(times, stored)
            && r.value.tool == (if stored.Some? && CountNewer(times, stored) == 0 then stored.value.tool else tool)
  {
    MaxIsMax(times);
    CountIsNone(times, stored);
    if stored.Some? {
      var all := times + [stored.value.last];
      MaxIsMax(all);
      assert all[|times|] in all && all[..|times|] == times;
    }
  }

  lemma ReplayKey(stored: Option<Record>, times: seq<int>, tool: string)
    ensures Merged(Merged(stored, times, tool), times, tool) == Merged(stored, times, tool)
  {
    if times != [] {
      MergedTimes(stored, times, tool);
      MaxIsMax(times);
      CountIsNone(times, Merged(stored, times, tool));
    }
  }

  /** Every later change is newer than the whole prefix, unless it was already behind the record. */
  ghost predicate StrictlyLater(stored: Option<Record>, prefix: seq<int>, rest: seq<int>) {
    prefix != [] ==> forall t :: t in rest && Newer(t, stored) ==> t > MaxOf(prefix)
  }

  lemma CountsAgree(stored: Option<Record>, p: seq<int>, r: seq<int>, tool: string)
    requires p != []
    ensures var between := Merged(stored, p, tool);
            CountNewer(p, stored) + CountNewer(p + r, between) <= CountNewer(p + r, stored)
    ensures var between := Merged(stored, p, tool);
            CountNewer(p, stored) + CountNewer(p + r, between) == CountNewer(p + r, stored)
            <==> StrictlyLater(stored, p, r)
  {
    var between := Merged(stored, p, tool);
    MergedTimes(stored, p, tool);
    MaxIsMax(p);
    CountConcat(p, r, stored);
    CountConcat(p, r, between);
    CountIsNone(p, between);
    CountLater(r, stored, between);
    forall t | t in r && Newer(t, stored) ensures Newer(t, between) <==> t > MaxOf(p) {
    }
  }

  lemma LaterAgrees(stored: Option<Record>, p: seq<int>, r: seq<int>, tool: string)
    requires p != []
    ensures Later(Merged(stored, p, tool), p + r) == Later(stored, p + r)
  {
    MergedTimes(stored, p, tool);
    MaxIsMax(p);
    MaxIsMax(p + r);
    assert MaxOf(p) in p + r;
  }

  lemma FirstAgrees(p: seq<int>, r: seq<int>)
    requires p != [] && StrictlyLater(None, p, r)
    ensures MinOf(p + r) == MinOf(p)
  {
    MaxIsMax(p);
    MinIsMin(p);
    MinIsMin(p + r);
    assert MinOf(p) in p + r;
  }

  /** When the second read finds nothing new, it would not have changed the tool either. */
  lemma ToolAgrees(stored: Option<Record>, p: seq<Change>, r: seq<Change>, k: Key)
    requires var tp := Times(p, k);
             tp != [] && CountNewer(tp, stored) > 0
             && CountNewer(tp + Times(r, k), Merged(stored, tp, ToolOf(p, k))) == 0
    ensures ToolOf(p + r, k) == ToolOf(p, k)
  {
    var tp, tr := Times(p, k), Times(r, k);
    var between := Merged(stored, tp, ToolOf(p, k));
    MergedTimes(stored, tp, ToolOf(p, k));
    CountIsNone(tp, stored);
    CountIsNone(tp + tr, between);
    MaxIsMax(tp);
    forall t | t in tr ensures t <= MaxOf(tp) {
      assert t in tp + tr;
    }
    NewestKept(p, r, k);
  }

  lemma AllNew(times: seq<int>)
    requires times != []
    ensures CountNewer(times, None) > 0
  {
  }

  lemma EmptyPrefix(stored: Option<Record>, p: seq<int>, r: seq<int>, tool: string)
    requires p == []
    ensures Merged(stored, p, tool) == stored && StrictlyLater(stored, p, r)
  {
  }

  lemma SameRecord(stored: Option<Record>, p: seq<Change>, r: seq<Change>, k: Key)
    requires Times(p, k) != [] && Times(p + r, k) == Times(p, k) + Times(r, k)
    ensures After(After(stored, p, k), p + r, k) == After(stored, p + r, k)
            <==> StrictlyLater(stored, Times(p, k), Times(r, k))
  {
    hide Merged, MaxOf, MinOf, Newer, StrictlyLater, CountNewer, Later, ToolOf, Times, Newest;
    var tp, tr := Times(p, k), Times(r, k);
    var between := After(stored, p, k);
    MergedTimes(stored, tp, ToolOf(p, k));
    MergedTimes(stored, tp + tr, ToolOf(p + r, k));
    MergedTimes(between, tp + tr, ToolOf(p + r, k));
    CountsAgree(stored, tp, tr, ToolOf(p, k));
    LaterAgrees(stored, tp, tr, ToolOf(p, k));
    if StrictlyLater(stored, tp, tr) {
      if stored.None? {
        FirstAgrees(tp, tr);
        CountIsNone(tp, stored);
        AllNew(tp);
      }
      if CountNewer(tp + tr, between) == 0 && CountNewer(tp, stored) > 0 {
        ToolAgrees(stored, p, r, k);
      }
    }
  }

  /** Per key: a prefix and then the whole leave the record that the whole alone leaves. */
  lemma PrefixThenWholeKey(stored: Option<Record>, p: seq<Change>, r: seq<Change>, k: Key)
    ensures After(After(stored, p, k), p + r, k) == After(stored, p + r, k)
            <==> StrictlyLater(stored, Times(p, k), Times(r, k))
  {
    hide Merged, MaxOf, MinOf, Newer, StrictlyLater;
    var tp, tr := Times(p, k), Times(r, k);
    TimesConcat(p, r, k);
    if tp == [] {
      EmptyPrefix(stored, tp, tr, ToolOf(p, k));
    } else {
      SameRecord(stored, p, r, k);
    }
  }

  // ---------------------------------------------------------------- whole stores

  lemma SameStore(a: Store, b: Store)
    requires forall k :: Get(a, k) == Get(b, k)
    ensures a == b
  {
    forall k ensures k in a <==> k in b {
      assert Get(a, k) == Get(b, k);
    }
    forall k | k in a ensures a[k] == b[k] {
      assert Get(a, k) == Get(b, k);
    }
  }

  /** Reading the same batch again writes nothing. */
  lemma ReplayWritesNothing(store: Store, changes: seq<Change>, once: Store, twice: Store)
    requires Projects(store, changes, once) && Projects(once, changes, twice)
    ensures twice == once
    ensures Changed(once, twice, Keys(changes)) == {}
  {
    forall k ensures Get(twice, k) == Get(once, k) {
      ReplayKey(Get(store, k), Times(changes, k), ToolOf(changes, k));
    }
    SameStore(twice, once);
  }

  /**
    Reading a prefix and then the whole grown transcript leaves the store that one read of the
    whole leaves, exactly when the later changes are strictly newer, session and file by file.
   */
  lemma PrefixThenWhole(store: Store, p: seq<Change>, r: seq<Change>, first: Store, both: Store, whole: Store)
    requires Projects(store, p, first) && Projects(first, p + r, both) && Projects(store, p + r, whole)
    ensures both == whole <==> forall k :: StrictlyLater(Get(store, k), Times(p, k), Times(r, k))
  {
    hide After, StrictlyLater, Times, Newest;
    forall k ensures Get(both, k) == Get(whole, k) <==> StrictlyLater(Get(store, k), Times(p, k), Times(r, k)) {
      PrefixThenWholeKey(Get(store, k), p, r, k);
    }
    if forall k :: StrictlyLater(Get(store, k), Times(p, k), Times(r, k)) {
      SameStore(both, whole);
    }
  }

  // ---------------------------------------------------------------- what a record says

  lemma {:induction false} TimesMean(changes: seq<Change>, k: Key, t: int)
    ensures t in Times(changes, k) <==> exists x :: 0 <= x < |changes| && changes[x].key == k && changes[x].at == t
  {
    if changes != [] {
      var n := |changes| - 1;
      var front := changes[..n];
      TimesMean(front, k, t);
      assert forall x :: 0 <= x < n ==> front[x] == changes[x];
      assert t in Times(changes, k) <==> t in Times(front, k) || (changes[n].key == k && changes[n].at == t);
    }
  }

  lemma CountMeans(changes: seq<Change>, k: Key, stored: Option<Record>)
    ensures CountNewer(Times(changes, k), stored)
            == |set x | 0 <= x < |changes| && changes[x].key == k && (stored.None? || changes[x].at > stored.value.last)|
  {
    var counts := (c: Change) => c.key == k && Newer(c.at, stored);
    CountAll(changes, k, stored, counts);
    assert (set x | 0 <= x < |changes| && counts(changes[x]))
        == set x | 0 <= x < |changes| && changes[x].key == k && (stored.None? || changes[x].at > stored.value.last);
  }

  lemma {:induction false} CountAll(changes: seq<Change>, k: Key, stored: Option<Record>, counts: Change -> bool)
    requires forall c: Change :: counts(c) <==> c.key == k && Newer(c.at, stored)
    ensures CountNewer(Times(changes, k), stored) == |set x | 0 <= x < |changes| && counts(changes[x])|
  {
    hide Newer, Times, CountNewer;
    if changes != [] {
      var n := |changes| - 1;
      var front := changes[..n];
      CountAll(front, k, stored, counts);
      CountStep(changes, k, stored);
      assert (set x | 0 <= x < |changes| && counts(changes[x]))
          == (set x | 0 <= x < |front| && counts(front[x])) + if counts(changes[n]) then {n} else {};
    } else {
      NoTimes(k, stored);
    }
  }

  lemma NoTimes(k: Key, stored: Option<Record>)
    ensures CountNewer(Times([], k), stored) == 0
  {
  }

  lemma CountStep(changes: seq<Change>, k: Key, stored: Option<Record>)
    requires changes != []
    ensures var n := |changes| - 1;
            CountNewer(Times(changes, k), stored)
            == CountNewer(Times(changes[..n], k), stored)
               + if changes[n].key == k && Newer(changes[n].at, stored) then 1 else 0
  {
    var n := |changes| - 1;
    var before := Times(changes[..n], k);
    if changes[n].key == k {
      assert (before + [changes[n].at])[..|before|] == before;
    }
  }

  /** The first of the newest changes of a key. */
  lemma {:induction false} ToolMeans(changes: seq<Change>, k: Key)
    requires Times(changes, k) != []
    ensures exists x :: 0 <= x < |changes| && changes[x].key == k && changes[x].tool == ToolOf(changes, k)
              && forall y :: 0 <= y < |changes| && changes[y].key == k ==>
                   changes[y].at < changes[x].at || (changes[y].at == changes[x].at && x <= y)
  {
    var x := NewestAt(changes, k);
  }

  lemma {:induction false} NewestAt(changes: seq<Change>, k: Key) returns (x: nat)
    requires Times(changes, k) != []
    ensures x < |changes| && changes[x].key == k && Newest(changes, k) == Some(changes[x])
    ensures forall y :: 0 <= y < |changes| && changes[y].key == k ==>
              changes[y].at < changes[x].at || (changes[y].at == changes[x].at && x <= y)
  {
    var n := |changes| - 1;
    var front := changes[..n];
    NewestIsNewest(front, k);
    if Times(front, k) == [] {
      TimesEmpty(front, k);
      forall y | 0 <= y < n ensures changes[y].key != k {
        assert front[y].key in Keys(front);
      }
      return n;
    }
    x := NewestAt(front, k);
    assert forall y :: 0 <= y < n ==> front[y] == changes[y];
    if changes[n].key == k && changes[n].at > changes[x].at {
      x := n;
    }
  }

  /**
    The record of a key after a batch, in the batch's own words. Without a change of that key it is
    as it was. Otherwise its count has grown by the changes after the last known time, its last time
    is the latest ever seen, its first time the earliest of the first batch, and its tool that of the
    first of the newest changes, unless none of them was new.
   */
  lemma RecordMeans(before: Store, changes: seq<Change>, after: Store, k: Key)
    requires Projects(before, changes, after)
    ensures (forall x :: 0 <= x < |changes| ==> changes[x].key != k) ==>
              (k in after <==> k in before) && (k in before ==> after[k] == before[k])
    ensures (exists x :: 0 <= x < |changes| && changes[x].key == k) ==>
              && k in after
              && var later := set x | 0 <= x < |changes| && changes[x].key == k && (k !in before || changes[x].at > before[k].last);
                 && after[k].count == (if k in before then before[k].count else 0) + |later|
                 && (forall x :: 0 <= x < |changes| && changes[x].key == k ==> changes[x].at <= after[k].last)
                 && (k in before ==> before[k].last <= after[k].last && after[k].first == before[k].first)
                 && ((k in before && after[k].last == before[k].last)
                     || exists x :: 0 <= x < |changes| && changes[x].key == k && changes[x].at == after[k].last)
                 && (k !in before ==>
                       && (forall x :: 0 <= x < |changes| && changes[x].key == k ==> after[k].first <= changes[x].at)
                       && exists x :: 0 <= x < |changes| && changes[x].key == k && changes[x].at == after[k].first)
                 && (if k in before && later == {} then after[k].tool == before[k].tool
                     else exists x :: 0 <= x < |changes| && changes[x].key == k && changes[x].tool == after[k].tool
                            && forall y :: 0 <= y < |changes| && changes[y].key == k ==>
                                 changes[y].at < changes[x].at || (changes[y].at == changes[x].at && x <= y))
  {
    hide Merged, MaxOf, MinOf, CountNewer, Newest;
    assert Get(after, k) == After(Get(before, k), changes, k);
    if x :| 0 <= x < |changes| && changes[x].key == k {
      TimesMean(changes, k, changes[x].at);
      MergedTimes(Get(before, k), Times(changes, k), ToolOf(changes, k));
      assert Get(after, k) == Merged(Get(before, k), Times(changes, k), ToolOf(changes, k));
      RecordDescribes(before, changes, k, after[k]);
    } else {
      TimesEmpty(changes, k);
      NothingMerged(Get(before, k), ToolOf(changes, k));
    }
  }

  lemma NothingMerged(stored: Option<Record>, tool: string)
    ensures Merged(stored, [], tool) == stored
  {
  }

  lemma RecordDescribes(before: Store, changes: seq<Change>, k: Key, r: Record)
    requires Times(changes, k) != [] && Some(r) == Merged(Get(before, k), Times(changes, k), ToolOf(changes, k))
    ensures
      var later := set x | 0 <= x < |changes| && changes[x].key == k && (k !in before || changes[x].at > before[k].last);
      && r.count == (if k in before then before[k].count else 0) + |later|
      && (forall x :: 0 <= x < |changes| && changes[x].key == k ==> changes[x].at <= r.last)
      && (k in before ==> before[k].last <= r.last && r.first == before[k].first)
      && ((k in before && r.last == before[k].last)
          || exists x :: 0 <= x < |changes| && changes[x].key == k && changes[x].at == r.last)
      && (k !in before ==>
            && (forall x :: 0 <= x < |changes| && changes[x].key == k ==> r.first <= changes[x].at)
            && exists x :: 0 <= x < |changes| && changes[x].key == k && changes[x].at == r.first)
      && (if k in before && later == {} then r.tool == before[k].tool
          else exists x :: 0 <= x < |changes| && changes[x].key == k && changes[x].tool == r.tool
                 && forall y :: 0 <= y < |changes| && changes[y].key == k ==>
                      changes[y].at < changes[x].at || (changes[y].at == changes[x].at && x <= y))
  {
    var stored, times := Get(before, k), Times(changes, k);
    MergedTimes(stored, times, ToolOf(changes, k));
    MaxIsMax(times);
    MinIsMin(times);
    CountMeans(changes, k, stored);
    ToolMeans(changes, k);
    hide Merged, MaxOf, MinOf, CountNewer, Newest, Times, ToolOf;
    var later := set x | 0 <= x < |changes| && changes[x].key == k && (k !in before || changes[x].at > before[k].last);
    assert later == set x | 0 <= x < |changes| && changes[x].key == k && (stored.None? || changes[x].at > stored.value.last);
    TimesMean(changes, k, MaxOf(times));
    TimesMean(changes, k, MinOf(times));
    forall x | 0 <= x < |changes| && changes[x].key == k ensures changes[x].at in times {
      TimesMean(changes, k, changes[x].at);
    }
  }

  // ---------------------------------------------------------------- the two loops

  function GroupOf(changes: seq<Change>, k: Key): Option<Group> {
    match Newest(changes, k)
    case None => None
    case Some(c) => Some(Group(Times(changes, k), c.at, c.tool))
  }

  /** The keys in order of first appearance. */
  function Firsts(changes: seq<Change>): seq<Key> {
    if changes == [] then []
    else
      var n := |changes| - 1;
      var before := Firsts(changes[..n]);
      if changes[n].key in before then before else before + [changes[n].key]
  }

  /** Some change to `a` comes before every change to `b`. */
  ghost predicate AppearsBefore(changes: seq<Change>, a: Key, b: Key) {
    exists x :: 0 <= x < |changes| && changes[x].key == a && forall y :: 0 <= y <= x ==> changes[y].key != b
  }

  lemma {:induction false} FirstsAreKeys(changes: seq<Change>, k: Key)
    ensures k in Firsts(changes) <==> exists x :: 0 <= x < |changes| && changes[x].key == k
  {
    if changes != [] {
      var n := |changes| - 1;
      FirstsAreKeys(changes[..n], k);
      if x :| 0 <= x < |changes| && changes[x].key == k && x < n {
        assert changes[..n][x].key == k;
      }
      if y :| 0 <= y < n && changes[..n][y].key == k {
        assert changes[y].key == k;
      }
    }
  }

  lemma {:induction false} FirstsInOrder(changes: seq<Change>, i: nat, j: nat)
    requires i < j < |Firsts(changes)|
    ensures AppearsBefore(changes, Firsts(changes)[i], Firsts(changes)[j])
  {
    var n := |changes| - 1;
    var before := Firsts(changes[..n]);
    var a, b := Firsts(changes)[i], Firsts(changes)[j];
    if j < |before| {
      FirstsInOrder(changes[..n], i, j);
      var x :| 0 <= x < n && changes[..n][x].key == a && forall y :: 0 <= y <= x ==> changes[..n][y].key != b;
      assert changes[x].key == a && forall y :: 0 <= y <= x ==> changes[y].key == changes[..n][y].key;
    } else {
      FirstsAreKeys(changes[..n], a);
      FirstsAreKeys(changes[..n], b);
      var x :| 0 <= x < n && changes[..n][x].key == a;
      assert changes[x].key == a;
      forall y | 0 <= y <= x ensures changes[y].key != b {
        assert changes[..n][y].key == changes[y].key;
      }
    }
  }

  /** One more change. */
  lemma FirstsGrow(changes: seq<Change>, c: Change)
    ensures Firsts(changes + [c]) == if c.key in Firsts(changes) then Firsts(changes) else Firsts(changes) + [c.key]
  {
    assert (changes + [c])[..|changes|] == changes;
  }

  /** A JavaScript `Map`: entries, and the order in which they were first set. */
  ghost predicate Groups(grouped: map<Key, Group>, order: seq<Key>, changes: seq<Change>) {
    && Distinct(order) && Elements(order) == grouped.Keys == Keys(changes)
    && order == Firsts(changes)
    && forall k :: k in grouped ==> GroupOf(changes, k) == Some(grouped[k])
  }

  /** What one more change does to the group of its own key, and only to that. */
  lemma OneMore(changes: seq<Change>, c: Change, k: Key)
    ensures Times(changes + [c], k) == if c.key == k then Times(changes, k) + [c.at] else Times(changes, k)
    ensures var before := Newest(changes, k);
            Newest(changes + [c], k) == if c.key == k && (before.None? || c.at > before.value.at) then Some(c) else before
  {
    assert (changes + [c])[..|changes|] == changes;
  }

  lemma KeysGrow(changes: seq<Change>, c: Change)
    ensures Keys(changes + [c]) == Keys(changes) + {c.key}
  {
    var all := changes + [c];
    assert all[|all| - 1] == c;
    forall x | x in Keys(changes) ensures x in Keys(all) {
      var d :| d in changes && d.key == x;
      assert d in all;
    }
  }

  lemma GroupGrows(changes: seq<Change>, c: Change, k: Key)
    ensures GroupOf(changes + [c], k) == (
              if c.key != k then GroupOf(changes, k)
              else match GroupOf(changes, k)
                   case None => Some(Group([c.at], c.at, c.tool))
                   case Some(g) =>
                     Some(if c.at > g.latest then Group(g.times + [c.at], c.at, c.tool) else g.(times := g.times + [c.at])))
  {
    hide Times, Newest;
    OneMore(changes, c, k);
    NewestIsNewest(changes, k);
    assert Times(changes, k) == [] ==> Times(changes, k) + [c.at] == [c.at];
  }

  lemma NewGroup(grouped: map<Key, Group>, order: seq<Key>, before: seq<Change>, c: Change)
    requires Groups(grouped, order, before) && c.key !in grouped
    ensures Groups(grouped[c.key := Group([c.at], c.at, c.tool)], order + [c.key], before + [c])
  {
    hide Keys, Times, Newest, Firsts;
    KeysGrow(before, c);
    FirstsGrow(before, c);
    NewestIsNewest(before, c.key);
    TimesEmpty(before, c.key);
    forall k {
      GroupGrows(before, c, k);
    }
    ElementsSnoc(order, c.key);
    assert c.key !in Elements(order);
  }

  lemma GrownGroup(grouped: map<Key, Group>, order: seq<Key>, before: seq<Change>, c: Change, g: Group)
    requires Groups(grouped, order, before) && GroupOf(before + [c], c.key) == Some(g) && c.key in grouped
    ensures Groups(grouped[c.key := g], order, before + [c])
  {
    hide Keys, Times, Newest, GroupOf, Firsts;
    KeysGrow(before, c);
    FirstsGrow(before, c);
    assert c.key in Elements(order);
    forall k {
      GroupGrows(before, c, k);
    }
    assert Keys(before) + {c.key} == Keys(before);
  }

  lemma GroupKnown(grouped: map<Key, Group>, order: seq<Key>, changes: seq<Change>, k: Key)
    requires Groups(grouped, order, changes) && k in grouped
    ensures GroupOf(changes, k) == Some(grouped[k])
  {
  }

  method Aggregate(changes: seq<Change>) returns (grouped: map<Key, Group>, order: seq<Key>)
    ensures Groups(grouped, order, changes)
  {
    grouped, order := map[], [];
    assert Groups(grouped, order, changes[..0]);
    hide Keys, Times, Newest, Groups, GroupOf;
    for i := 0 to |changes|
      invariant Groups(grouped, order, changes[..i])
    {
      var c := changes[i];
      ghost var before := changes[..i];
      assert changes[..i + 1] == before + [c];
      GroupGrows(before, c, c.key);
      if c.key !in grouped {
        NewGroup(grouped, order, before, c);
        grouped := grouped[c.key := Group([c.at], c.at, c.tool)];
        order := order + [c.key];
      } else {
        var g := grouped[c.key];
        GroupKnown(grouped, order, before, c.key);
        g := g.(times := g.times + [c.at]);
        if c.at > g.latest {
          g := g.(latest := c.at, tool := c.tool);
        }
        GrownGroup(grouped, order, before, c, g);
        grouped := grouped[c.key := g];
      }
    }
    assert changes[..|changes|] == changes;
  }

  /** What the second loop writes for one group, and when it skips it. */
  function Written(stored: Option<Record>, group: Group): Record
    requires group.times != []
  {
    var times := if stored.None? then group.times else group.times + [stored.value.last];
    Record(group.tool,
           (if stored.Some? then stored.value.count else 0) + CountNewer(group.times, stored),
           if stored.Some? then stored.value.first else MinOf(times),
           MaxOf(times))
  }

  lemma WritesOrSkips(stored: Option<Record>, changes: seq<Change>, k: Key, group: Group)
    requires GroupOf(changes, k) == Some(group)
    ensures group.times != []
    ensures var skipped := stored.Some? && CountNewer(group.times, stored) == 0;
            After(stored, changes, k) == (if skipped then stored else Some(Written(stored, group)))
            && (skipped <==> After(stored, changes, k) == stored)
  {
    hide Times, Newest, CountNewer, MaxOf, MinOf;
    NewestIsNewest(changes, k);
    assert stored.Some? && CountNewer(group.times, stored) > 0 ==> Written(stored, group).count > stored.value.count;
  }

  lemma Untouched(stored: Option<Record>, changes: seq<Change>, k: Key)
    requires k !in Keys(changes)
    ensures After(stored, changes, k) == stored
  {
    TimesEmpty(changes, k);
  }

  /** The store after the groups of `done` have been handled. */
  ghost predicate Handled(before: Store, changes: seq<Change>, done: set<Key>, store: Store) {
    forall k :: Get(store, k) == if k in done then After(Get(before, k), changes, k) else Get(before, k)
  }

  lemma NothingHandled(store: Store, changes: seq<Change>, order: seq<Key>)
    ensures Handled(store, changes, {}, store) && Changed(store, store, {}) == {} && Elements(order[..0]) == {}
  {
  }

  lemma NotHandledYet(before: Store, changes: seq<Change>, done: set<Key>, store: Store, id: Key)
    requires Handled(before, changes, done, store) && id !in done
    ensures Get(store, id) == Get(before, id) && id !in Changed(before, store, done)
  {
  }

  lemma OrderIsKeys(grouped: map<Key, Group>, order: seq<Key>, changes: seq<Change>)
    requires Groups(grouped, order, changes)
    ensures Elements(order) == Keys(changes)
  {
  }

  lemma HandleOne(before: Store, changes: seq<Change>, done: set<Key>, store: Store, id: Key, store': Store)
    requires Handled(before, changes, done, store) && id !in done
    requires Get(store', id) == After(Get(before, id), changes, id) && forall k :: k != id ==> Get(store', k) == Get(store, k)
    ensures Handled(before, changes, done + {id}, store')
    ensures Changed(before, store', done + {id})
            == Changed(before, store, done) + (if Get(store', id) != Get(before, id) then {id} else {})
  {
    hide After;
  }

  /** The `i`-th entry in the order of the `Map`. */
  lemma Entry(grouped: map<Key, Group>, order: seq<Key>, changes: seq<Change>, i: nat)
    requires Groups(grouped, order, changes) && i < |order|
    ensures order[i] in grouped && GroupOf(changes, order[i]) == Some(grouped[order[i]])
    ensures order[i] !in Elements(order[..i])
    ensures Elements(order[..i + 1]) == Elements(order[..i]) + {order[i]}
  {
    assert order[..i + 1] == order[..i] + [order[i]] && order[i] in Elements(order);
    ElementsSnoc(order[..i], order[i]);
  }

  class Repository {
    var store: Store

    constructor ()
      ensures store == map[]
    {
      store := map[];
    }

    /** The body of the second loop. */
    method ProjectGroup(id: Key, group: Group) returns (wrote: bool)
      requires group.times != []
      modifies this
      ensures wrote <==> !(Get(old(store), id).Some? && CountNewer(group.times, Get(old(store), id)) == 0)
      ensures Get(store, id) == if wrote then Some(Written(Get(old(store), id), group)) else Get(old(store), id)
      ensures forall k :: k != id ==> Get(store, k) == Get(old(store), k)
    {
      var stored := Get(store, id);
      var more := CountNewer(group.times, stored);
      if stored.Some? && more == 0 {
        return false;
      }
      if stored.None? {
        CountIsNone(group.times, stored);
      }
      var times := if stored.None? then group.times else group.times + [stored.value.last];
      var first := if stored.Some? then stored.value.first else MinOf(times);
      var count := (if stored.Some? then stored.value.count else 0) + more;
      store := store[id := Record(group.tool, count, first, MaxOf(times))];
      wrote := true;
    }

    /** `projected` counts the records written; `evidence` is the last of them. */
    method ProjectSessionFileChanges(changes: seq<Change>) returns (projected: nat, evidence: Option<Key>)
      modifies this
      ensures Projects(old(store), changes, store)
      ensures projected == |Changed(old(store), store, Keys(changes))|
      ensures evidence.Some? <==> projected > 0
      ensures evidence.Some? ==> evidence.value in Changed(old(store), store, Keys(changes))
    {
      var grouped, order := Aggregate(changes);
      ghost var before := store;
      projected, evidence := 0, None;
      NoneProjected(before, changes, order);
      hide *;
      for i := 0 to |order|
        invariant Projected(before, changes, order[..i], store, projected, evidence)
      {
        var id := order[i];
        ghost var was := store;
        Entry(grouped, order, changes, i);
        WritesOrSkips(Get(was, id), changes, id, grouped[id]);
        var wrote := ProjectGroup(id, grouped[id]);
        OneProjected(before, changes, order, i, was, store, projected, evidence, grouped[id], wrote);
        if wrote {
          projected := projected + 1;
          evidence := Some(id);
        }
      }
      assert order[..|order|] == order;
      AllProjected(before, changes, grouped, order, store, projected, evidence);
    }
  }

  /** The loop after the keys of `done`. */
  ghost predicate Projected(before: Store, changes: seq<Change>, done: seq<Key>, store: Store, projected: nat,
                            evidence: Option<Key>) {
    var changed := Changed(before, store, Elements(done));
    && Handled(before, changes, Elements(done), store)
    && projected == |changed|
    && (evidence.Some? <==> projected > 0)
    && (evidence.Some? ==> evidence.value in changed)
  }

  lemma NoneProjected(store: Store, changes: seq<Change>, order: seq<Key>)
    ensures Projected(store, changes, order[..0], store, 0, None)
  {
    NothingHandled(store, changes, order);
  }

  lemma OneProjected(before: Store, changes: seq<Change>, order: seq<Key>, i: nat, was: Store, store: Store,
                     projected: nat, evidence: Option<Key>, group: Group, wrote: bool)
    requires i < |order| && Projected(before, changes, order[..i], was, projected, evidence)
    requires order[i] !in Elements(order[..i]) && Elements(order[..i + 1]) == Elements(order[..i]) + {order[i]}
    requires var id := order[i];
             && Get(store, id) == After(Get(was, id), changes, id)
             && (wrote <==> Get(store, id) != Get(was, id))
             && forall k :: k != id ==> Get(store, k) == Get(was, k)
    ensures Projected(before, changes, order[..i + 1], store, if wrote then projected + 1 else projected,
                      if wrote then Some(order[i]) else evidence)
  {
    hide After, Handled, Changed, Elements;
    var done, id := Elements(order[..i]), order[i];
    NotHandledYet(before, changes, done, was, id);
    HandleOne(before, changes, done, was, id, store);
  }

  lemma AllProjected(before: Store, changes: seq<Change>, grouped: map<Key, Group>, order: seq<Key>, store: Store,
                     projected: nat, evidence: Option<Key>)
    requires Groups(grouped, order, changes) && Projected(before, changes, order, store, projected, evidence)
    ensures Projects(before, changes, store)
    ensures projected == |Changed(before, store, Keys(changes))| && (evidence.Some? <==> projected > 0)
    ensures evidence.Some? ==> evidence.value in Changed(before, store, Keys(changes))
  {
    OrderIsKeys(grouped, order, changes);
    AllHandled(before, changes, store);
  }

  lemma AllHandled(before: Store, changes: seq<Change>, store: Store)
    requires Handled(before, changes, Keys(changes), store)
    ensures Projects(before, changes, store)
  {
    hide After, Keys;
    forall k ensures Get(store, k) == After(Get(before, k), changes, k) {
      if k !in Keys(changes) {
        Untouched(Get(before, k), changes, k);
      }
    }
  }
}

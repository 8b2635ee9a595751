/**
  What the Redis repository's list calls can see. Ids are numbered in the order in which the
  repository sorts them.
 */
module RepositoryListing {
  import opened Prelude

  const LIST_LIMIT := 1000

  /** An upsert says whether it expects the key to be there. */
  datatype Mode = Create | Update

  /** `slice(0, limit)` of the sorted ids: those with fewer than `limit` ids before them. */
  function Below(index: set<nat>, id: nat): set<nat> {
    set k | k in index && k < id
  }

  function Visible(index: set<nat>): set<nat> {
    set id | id in index && |Below(index, id)| < LIST_LIMIT
  }

  lemma SmallIsVisible(index: set<nat>)
    requires |index| <= LIST_LIMIT
    ensures Visible(index) == index
  {
    forall id | id in index ensures |Below(index, id)| < LIST_LIMIT {
      SubsetSize(Below(index, id) + {id}, index);
    }
  }

  lemma {:induction false} HasLeast(s: set<nat>, x: nat)
    requires x in s
    ensures exists m :: m in s && forall k :: k in s ==> m <= k
    decreases x
  {
    if k :| k in s && k < x {
      HasLeast(s, k);
    } else {
      assert forall k :: k in s ==> x <= k;
    }
  }

  method Least(s: set<nat>) returns (m: nat)
    requires s != {}
    ensures m in s && forall k :: k in s ==> m <= k
  {
    ghost var x :| x in s;
    HasLeast(s, x);
    m :| m in s && forall k :: k in s ==> m <= k;
  }

  lemma {:induction false} Greatest(s: set<nat>) returns (m: nat)
    requires s != {}
    ensures m in s && forall k :: k in s ==> k <= m
  {
    var x :| x in s;
    m := x;
    if s - {x} != {} {
      var k := Greatest(s - {x});
      m := if x < k then k else x;
    }
    forall j | j in s ensures j <= m {
      assert j == x || j in s - {x};
    }
  }

  /** Beyond the limit something is always out of sight. */
  lemma LargeHides(index: set<nat>)
    requires |index| > LIST_LIMIT
    ensures exists id :: id in index && id !in Visible(index)
  {
    var m := Greatest(index);
    assert Below(index, m) + {m} == index;
    assert m !in Visible(index);
  }

  /** The ids picked so far, `rest` still to come. */
  ghost predicate Picked(index: set<nat>, ids: seq<nat>, rest: set<nat>) {
    && Elements(ids) !! rest && Elements(ids) + rest == index
    && Distinct(ids)
    && forall a, b :: a in ids && b in rest ==> a < b
  }

  lemma PickedIsVisible(index: set<nat>, ids: seq<nat>, rest: set<nat>)
    requires Picked(index, ids, rest) && |ids| <= LIST_LIMIT && (rest == {} || |ids| == LIST_LIMIT)
    ensures Elements(ids) == Visible(index)
  {
    UniqueCount(ids);
    forall id | id in index ensures id in ids <==> |Below(index, id)| < LIST_LIMIT {
      if id in ids {
        assert Below(index, id) + {id} <= Elements(ids);
        SubsetSize(Below(index, id) + {id}, Elements(ids));
      } else {
        SubsetSize(Elements(ids), Below(index, id));
      }
    }
  }

  lemma PickOne(index: set<nat>, ids: seq<nat>, rest: set<nat>, m: nat)
    requires Picked(index, ids, rest) && m in rest && forall k :: k in rest ==> m <= k
    ensures Picked(index, ids + [m], rest - {m})
  {
    ElementsSnoc(ids, m);
    assert m !in Elements(ids);
  }

  lemma PickedMeans(index: set<nat>, ids: seq<nat>, rest: set<nat>)
    requires Picked(index, ids, rest) && |ids| <= LIST_LIMIT && (rest == {} || |ids| == LIST_LIMIT)
    ensures Distinct(ids)
    ensures |ids| == if |index| < 1000 then |index| else 1000
    ensures forall a :: a in ids ==> a in index && forall b :: b in index && b !in ids ==> a < b
  {
    UniqueCount(ids);
    SubsetSize(Elements(ids), index);
    assert forall b :: b in index && b !in ids ==> b in rest;
  }

  method ListIds(index: set<nat>) returns (ids: seq<nat>)
    ensures Distinct(ids) && Elements(ids) == Visible(index)
    ensures |ids| == if |index| < 1000 then |index| else 1000
    ensures forall a :: a in ids ==> a in index && forall b :: b in index && b !in ids ==> a < b
  {
    ids := [];
    var rest := index;
    assert Picked(index, ids, rest);
    hide Picked, Visible, Elements;
    while rest != {} && |ids| < LIST_LIMIT
      invariant Picked(index, ids, rest) && |ids| <= LIST_LIMIT
      decreases |rest|
    {
      var m := Least(rest);
      PickOne(index, ids, rest, m);
      ids := ids + [m];
      rest := rest - {m};
    }
    PickedIsVisible(index, ids, rest);
    PickedMeans(index, ids, rest);
  }

  /** A listing of more than the limit shows exactly as many ids as the limit. */
  lemma {:induction false} VisibleCount(index: set<nat>)
    requires |index| >= LIST_LIMIT
    ensures |Visible(index)| == LIST_LIMIT
    decreases |index|
  {
    if |index| == LIST_LIMIT {
      SmallIsVisible(index);
    } else {
      var m := Greatest(index);
      assert Below(index, m) == index - {m};
      VisibleCount(index - {m});
      forall id | id in index - {m} ensures Below(index - {m}, id) == Below(index, id) {
      }
      assert Visible(index) == Visible(index - {m});
    }
  }
}

/**
 * `routes.sortedBy { it.shortName.ifBlank { it.longName } }`: a stable sort
 * of routes by their display key under `String.compareTo`.
 */
module RouteSort {
  import opened Text
  import opened VehicleModel

  /** The sort key: the short name, or the long name when the short one is blank. */
  function SortKey(r: Route): (k: string)
    ensures !IsBlank(r.shortName) ==> k == r.shortName
    ensures IsBlank(r.shortName) ==> k == r.longName
  {
    IfBlank(r.shortName, r.longName)
  }

  predicate SortedByKey(rs: seq<Route>) {
    forall i, j :: 0 <= i < j < |rs| ==> LexLeq(SortKey(rs[i]), SortKey(rs[j]))
  }

  /** The routes of `rs` whose key is `k`, in their order in `rs`. */
  function WithKey(rs: seq<Route>, k: string): seq<Route> {
    if rs == [] then []
    else (if SortKey(rs[0]) == k then [rs[0]] else []) + WithKey(rs[1..], k)
  }

  /** Inserts `x` before the first route whose key is not below its own. */
  function Insert(x: Route, rs: seq<Route>): seq<Route> {
    if rs == [] then [x]
    else if LexLeq(SortKey(x), SortKey(rs[0])) then [x] + rs
    else [rs[0]] + Insert(x, rs[1..])
  }

  /** The sort itself: insertion from the back, so earlier routes land before equal-keyed later ones. */
  function SortRoutes(rs: seq<Route>): seq<Route> {
    if rs == [] then [] else Insert(rs[0], SortRoutes(rs[1..]))
  }

  /** Every route of `Insert(x, rs)` is `x` or a route of `rs`. */
  lemma {:induction false} InsertMember(x: Route, rs: seq<Route>, y: Route)
    requires y in Insert(x, rs)
    ensures y == x || y in rs
  {
    if rs != [] && !LexLeq(SortKey(x), SortKey(rs[0])) && y != rs[0] {
      InsertMember(x, rs[1..], y);
    }
  }

  /** A route whose key is at most every key of a sorted list can go in front of it. */
  lemma ConsSorted(h: Route, t: seq<Route>)
    requires SortedByKey(t)
    requires forall j :: 0 <= j < |t| ==> LexLeq(SortKey(h), SortKey(t[j]))
    ensures SortedByKey([h] + t)
  {
    var r := [h] + t;
    forall i, j | 0 <= i < j < |r|
      ensures LexLeq(SortKey(r[i]), SortKey(r[j]))
    {
      assert r[j] == t[j - 1];
      if i > 0 { assert r[i] == t[i - 1]; }
    }
  }

  lemma {:induction false} InsertSorted(x: Route, rs: seq<Route>)
    requires SortedByKey(rs)
    ensures SortedByKey(Insert(x, rs))
    ensures multiset(Insert(x, rs)) == multiset(rs) + multiset{x}
  {
    if rs == [] {
    } else if LexLeq(SortKey(x), SortKey(rs[0])) {
      forall j | 0 <= j < |rs|
        ensures LexLeq(SortKey(x), SortKey(rs[j]))
      {
        if j > 0 {
          LexLeqTrans(SortKey(x), SortKey(rs[0]), SortKey(rs[j]));
        }
      }
      ConsSorted(x, rs);
    } else {
      assert SortedByKey(rs[1..]);
      InsertSorted(x, rs[1..]);
      var tail := Insert(x, rs[1..]);
      LexLeqTotal(SortKey(x), SortKey(rs[0]));
      forall j | 0 <= j < |tail|
        ensures LexLeq(SortKey(rs[0]), SortKey(tail[j]))
      {
        InsertMember(x, rs[1..], tail[j]);
        if tail[j] != x {
          var k :| 0 <= k < |rs[1..]| && rs[1..][k] == tail[j];
          assert rs[k + 1] == tail[j];
        }
      }
      ConsSorted(rs[0], tail);
      assert rs == [rs[0]] + rs[1..];
      assert multiset(rs) == multiset{rs[0]} + multiset(rs[1..]);
    }
  }

  lemma {:induction false} InsertWithKey(x: Route, rs: seq<Route>, k: string)
    ensures WithKey(Insert(x, rs), k) == (if SortKey(x) == k then [x] else []) + WithKey(rs, k)
  {
    if rs == [] {
      assert WithKey([x], k) == (if SortKey(x) == k then [x] else []) + WithKey([], k) by {
        assert [x][1..] == [];
      }
    } else if LexLeq(SortKey(x), SortKey(rs[0])) {
      assert ([x] + rs)[1..] == rs;
    } else {
      InsertWithKey(x, rs[1..], k);
      var r := [rs[0]] + Insert(x, rs[1..]);
      assert r[1..] == Insert(x, rs[1..]);
      if SortKey(x) == k && SortKey(rs[0]) == k {
        LexLeqRefl(k);
        assert false;
      }
    }
  }

  /**
   * `sortedBy` returns the same routes, ordered by key, and is stable: the
   * routes sharing a key keep their original relative order.
   */
  lemma {:induction false} SortRoutesSpec(rs: seq<Route>)
    ensures |SortRoutes(rs)| == |rs|
    ensures multiset(SortRoutes(rs)) == multiset(rs)
    ensures SortedByKey(SortRoutes(rs))
    ensures forall k :: WithKey(SortRoutes(rs), k) == WithKey(rs, k)
  {
    SortRoutesPermutation(rs);
    forall k ensures WithKey(SortRoutes(rs), k) == WithKey(rs, k) {
      SortRoutesStable(rs, k);
    }
    assert |SortRoutes(rs)| == |multiset(SortRoutes(rs))| == |multiset(rs)|;
  }

  lemma {:induction false} SortRoutesPermutation(rs: seq<Route>)
    ensures multiset(SortRoutes(rs)) == multiset(rs)
    ensures SortedByKey(SortRoutes(rs))
  {
    if rs != [] {
      SortRoutesPermutation(rs[1..]);
      InsertSorted(rs[0], SortRoutes(rs[1..]));
      assert rs == [rs[0]] + rs[1..];
    }
  }

  lemma {:induction false} SortRoutesStable(rs: seq<Route>, k: string)
    ensures WithKey(SortRoutes(rs), k) == WithKey(rs, k)
  {
    if rs != [] {
      SortRoutesStable(rs[1..], k);
      InsertWithKey(rs[0], SortRoutes(rs[1..]), k);
    }
  }

  /** A blank short name sorts by the long name: "  " / "Zeta" goes after "Alpha". */
  lemma SortKeyExample()
    ensures SortRoutes([Route("r2", " ", "Zeta", []), Route("r1", "Alpha", "", [])])
            == [Route("r1", "Alpha", "", []), Route("r2", " ", "Zeta", [])]
  {
    assert SortKey(Route("r2", " ", "Zeta", [])) == "Zeta";
    assert !IsBlank("Alpha") by { assert !IsWhitespace("Alpha"[0]); }
    assert SortKey(Route("r1", "Alpha", "", [])) == "Alpha";
    assert !LexLeq("Zeta", "Alpha");
  }
}

/** Finite object graphs and reachability. An object without an entry has no references. */
module Graphs {

  type Edges<Id> = map<Id, seq<Id>>

  function Refs<Id>(g: Edges<Id>, id: Id): seq<Id> {
    if id in g then g[id] else []
  }

  ghost predicate IsPath<Id>(g: Edges<Id>, p: seq<Id>) {
    |p| > 0 && forall k :: 0 <= k < |p| - 1 ==> p[k + 1] in Refs(g, p[k])
  }

  /** `x` can be reached from some root. */
  ghost predicate Reachable<Id(!new)>(g: Edges<Id>, roots: set<Id>, x: Id) {
    exists p :: IsPath(g, p) && p[0] in roots && p[|p| - 1] == x
  }

  ghost predicate Closed<Id>(g: Edges<Id>, s: set<Id>) {
    forall u, v :: u in s && v in Refs(g, u) ==> v in s
  }

  lemma RootsReachable<Id(!new)>(g: Edges<Id>, roots: set<Id>, x: Id)
    requires x in roots
    ensures Reachable(g, roots, x)
  {
    assert IsPath(g, [x]) && [x][0] in roots;
  }

  lemma StepReachable<Id(!new)>(g: Edges<Id>, roots: set<Id>, u: Id, v: Id)
    requires Reachable(g, roots, u) && v in Refs(g, u)
    ensures Reachable(g, roots, v)
  {
    var p :| IsPath(g, p) && p[0] in roots && p[|p| - 1] == u;
    var q := p + [v];
    forall k | 0 <= k < |q| - 1 ensures q[k + 1] in Refs(g, q[k]) {}
    assert IsPath(g, q) && q[0] in roots && q[|q| - 1] == v;
  }

  /** A set that holds the roots and is closed under references holds everything on a path. */
  lemma {:induction false} ClosedHoldsPath<Id>(g: Edges<Id>, s: set<Id>, p: seq<Id>)
    requires Closed(g, s) && IsPath(g, p) && p[0] in s
    ensures p[|p| - 1] in s
  {
    if |p| > 1 {
      assert p[0 + 1] in Refs(g, p[0]);
      assert IsPath(g, p[1..]) by {
        forall k | 0 <= k < |p[1..]| - 1 ensures p[1..][k + 1] in Refs(g, p[1..][k]) {
          assert p[(k + 1) + 1] in Refs(g, p[k + 1]);
        }
      }
      ClosedHoldsPath(g, s, p[1..]);
    }
  }

  lemma ClosedHoldsReachable<Id(!new)>(g: Edges<Id>, s: set<Id>, roots: set<Id>, x: Id)
    requires Closed(g, s) && roots <= s && Reachable(g, roots, x)
    ensures x in s
  {
    var p :| IsPath(g, p) && p[0] in roots && p[|p| - 1] == x;
    ClosedHoldsPath(g, s, p);
  }

  /** More roots reach more. */
  lemma MoreRoots<Id(!new)>(g: Edges<Id>, few: set<Id>, many: set<Id>, x: Id)
    requires few <= many && Reachable(g, few, x)
    ensures Reachable(g, many, x)
  {
    var p :| IsPath(g, p) && p[0] in few && p[|p| - 1] == x;
    assert p[0] in many;
  }

  /** Every target of a reference. */
  function AllRefs<Id(!new)>(g: Edges<Id>): set<Id> {
    set u, v | u in g && v in g[u] :: v
  }

  lemma RefIsRef<Id(!new)>(g: Edges<Id>, u: Id, v: Id)
    requires v in Refs(g, u)
    ensures v in AllRefs(g)
  {
    assert u in g && v in g[u];
  }

  /** Whatever can be reached is a root or the target of a reference. */
  lemma ReachableIsKnown<Id(!new)>(g: Edges<Id>, roots: set<Id>, x: Id)
    requires Reachable(g, roots, x)
    ensures x in roots + AllRefs(g)
  {
    var p :| IsPath(g, p) && p[0] in roots && p[|p| - 1] == x;
    if |p| > 1 {
      var k := |p| - 2;
      assert p[k + 1] in Refs(g, p[k]);
      RefIsRef(g, p[k], x);
    }
  }

  function Elems<Id>(ids: seq<Id>): set<Id> {
    set x | x in ids
  }

  lemma {:induction false} SubsetSize<T>(a: set<T>, b: set<T>)
    requires a <= b
    ensures |a| <= |b| && (a != b ==> |a| < |b|)
  {
    assert b == a + (b - a);
    if a != b { assert b - a != {}; }
  }

  /** Seeing more of the universe leaves less of it unseen. */
  lemma UnseenShrinks<T>(universe: set<T>, before: set<T>, seen: set<T>)
    requires before <= seen <= universe
    ensures |universe - seen| <= |universe - before| && (seen != before ==> |universe - seen| < |universe - before|)
  {
    SubsetSize(universe - seen, universe - before);
    if seen != before {
      var x :| x in seen && x !in before;
      assert x in universe - before && x !in universe - seen;
    }
  }
}

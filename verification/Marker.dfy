/** Stop-the-world tri-color marking over an object graph. */
module Marker {
  import opened Common
  import opened Graphs

  datatype Color = White | Grey | Black

  /** The state of the marker between two objects, or while it scans object `busy`, of which it has
      seen the references in `done`. */
  ghost predicate Tricolor<Id(!new)>(g: Edges<Id>, roots: set<Id>, all: set<Id>,
                                     color: map<Id, Color>, grey: seq<Id>, seen: set<Id>, busy: set<Id>) {
    && color.Keys == all + seen
    && NoDups(grey)
    && (forall x :: x in grey ==> x in seen)
    && (forall x :: x in busy ==> x in seen && x !in grey)
    && (forall x :: x in color ==> color[x] == ColorOf(x, grey, seen, busy))
    && (forall x :: x in seen ==> Reachable(g, roots, x))
    && (forall u, v :: u in seen && u !in grey && u !in busy && v in Refs(g, u) ==> v in seen)
  }

  ghost function ColorOf<Id>(x: Id, grey: seq<Id>, seen: set<Id>, busy: set<Id>): Color {
    if x !in seen then White
    else if x in grey || x in busy then Grey
    else Black
  }

  /** No black object references a white one. */
  ghost predicate NoBlackToWhite<Id>(g: Edges<Id>, color: map<Id, Color>) {
    forall u, v :: u in color && color[u] == Black && v in Refs(g, u) ==> v in color && color[v] != White
  }

  lemma TricolorInvariant<Id(!new)>(g: Edges<Id>, roots: set<Id>, all: set<Id>,
                                    color: map<Id, Color>, grey: seq<Id>, seen: set<Id>)
    requires Tricolor(g, roots, all, color, grey, seen, {})
    ensures NoBlackToWhite(g, color)
  {
  }

  /** The marker discovers a reachable object it has not seen. */
  lemma Discover<Id(!new)>(g: Edges<Id>, roots: set<Id>, all: set<Id>,
                           color: map<Id, Color>, grey: seq<Id>, seen: set<Id>, busy: set<Id>, x: Id)
    requires Tricolor(g, roots, all, color, grey, seen, busy) && x !in seen && Reachable(g, roots, x)
    ensures Tricolor(g, roots, all, color[x := Grey], grey + [x], seen + {x}, busy)
  {
    assert x !in grey;
    forall y ensures y in grey + [x] <==> y in grey || y == x {}
  }

  /** It takes the oldest grey object. */
  lemma TakeFront<Id(!new)>(g: Edges<Id>, roots: set<Id>, all: set<Id>,
                            color: map<Id, Color>, grey: seq<Id>, seen: set<Id>)
    requires Tricolor(g, roots, all, color, grey, seen, {}) && grey != []
    ensures Tricolor(g, roots, all, color, grey[1..], seen, {grey[0]})
    ensures Reachable(g, roots, grey[0])
  {
    forall y ensures y in grey <==> y in grey[1..] || y == grey[0] {}
  }

  /** It has seen all references of the object it holds. */
  lemma Blacken<Id(!new)>(g: Edges<Id>, roots: set<Id>, all: set<Id>,
                          color: map<Id, Color>, grey: seq<Id>, seen: set<Id>, id: Id)
    requires Tricolor(g, roots, all, color, grey, seen, {id}) && forall v :: v in Refs(g, id) ==> v in seen
    ensures Tricolor(g, roots, all, color[id := Black], grey, seen, {})
  {
  }

  /** With nothing grey left, what has been seen is what can be reached. */
  lemma AllSeen<Id(!new)>(g: Edges<Id>, roots: set<Id>, all: set<Id>, color: map<Id, Color>, seen: set<Id>)
    requires Tricolor(g, roots, all, color, [], seen, {}) && roots <= seen
    ensures forall x :: x in color && color[x] == Black <==> Reachable(g, roots, x)
    ensures forall x :: x in color && color[x] == White <==> x in all && !Reachable(g, roots, x)
    ensures forall x :: x in color ==> color[x] != Grey
  {
    forall x | Reachable(g, roots, x) ensures x in seen { ClosedHoldsReachable(g, seen, roots, x); }
  }

  /** Greys every object of `ids` that has not been seen: the roots, or the references of object `busy`. */
  method GreyUnseen<Id(==, !new)>(ids: seq<Id>, color: map<Id, Color>, grey: seq<Id>, seen: set<Id>,
                                  ghost g: Edges<Id>, ghost roots: set<Id>, ghost all: set<Id>, ghost busy: set<Id>)
    returns (color': map<Id, Color>, grey': seq<Id>, seen': set<Id>)
    requires Tricolor(g, roots, all, color, grey, seen, busy)
    requires forall x :: x in ids ==> Reachable(g, roots, x)
    ensures Tricolor(g, roots, all, color', grey', seen', busy)
    ensures seen' == seen + Elems(ids)
    ensures seen' == seen ==> grey' == grey
  {
    hide Tricolor, Reachable;
    color', grey', seen' := color, grey, seen;
    for i := 0 to |ids|
      invariant Tricolor(g, roots, all, color', grey', seen', busy)
      invariant seen' == seen + Elems(ids[..i])
      invariant seen' == seen ==> grey' == grey
    {
      var child := ids[i];
      assert ids[..i + 1] == ids[..i] + [child];
      if child !in seen' {
        Discover(g, roots, all, color', grey', seen', busy, child);
        seen' := seen' + {child};
        color' := color'[child := Grey];
        grey' := grey' + [child];
      }
    }
    assert ids[..|ids|] == ids;
  }

  /** Colors every object: Black exactly the reachable ones, White exactly the others of `allIds`, none Grey. */
  method Mark<Id(==, !new)>(g: Edges<Id>, roots: seq<Id>, allIds: seq<Id>) returns (color: map<Id, Color>)
    ensures forall x :: x in color && color[x] == Black <==> Reachable(g, Elems(roots), x)
    ensures forall x :: x in color && color[x] == White <==> x in allIds && !Reachable(g, Elems(roots), x)
    ensures forall x :: x in color ==> color[x] != Grey
  {
    hide Tricolor, NoBlackToWhite, Reachable, AllRefs;
    ghost var rs, all := Elems(roots), Elems(allIds);
    ghost var universe := rs + AllRefs(g);
    color := map id | id in allIds :: White;
    var grey: seq<Id> := [];
    var seen: set<Id> := {};
    NothingSeen(g, rs, all, color);
    forall r | r in roots ensures Reachable(g, rs, r) { RootsReachable(g, rs, r); }
    color, grey, seen := GreyUnseen(roots, color, grey, seen, g, rs, all, {});
    TricolorInvariant(g, rs, all, color, grey, seen);
    while grey != []
      invariant Tricolor(g, rs, all, color, grey, seen, {})
      invariant NoBlackToWhite(g, color)
      invariant rs <= seen <= universe
      decreases |universe - seen|, |grey|
    {
      ghost var before := seen;
      var id := grey[0];
      TakeFront(g, rs, all, color, grey, seen);
      RefsReachable(g, rs, id);
      assert Elems(Refs(g, id)) <= AllRefs(g);
      color, grey, seen := GreyUnseen(Refs(g, id), color, grey[1..], seen, g, rs, all, {id});
      Blacken(g, rs, all, color, grey, seen, id);
      color := color[id := Black];
      TricolorInvariant(g, rs, all, color, grey, seen);
      UnseenShrinks(universe, before, seen);
    }
    AllSeen(g, rs, all, color, seen);
  }

  lemma RefsReachable<Id(!new)>(g: Edges<Id>, roots: set<Id>, id: Id)
    requires Reachable(g, roots, id)
    ensures forall v :: v in Refs(g, id) ==> Reachable(g, roots, v) && v in AllRefs(g)
  {
    forall v | v in Refs(g, id) ensures Reachable(g, roots, v) && v in AllRefs(g) {
      StepReachable(g, roots, id, v);
      RefIsRef(g, id, v);
    }
  }

  lemma NothingSeen<Id(!new)>(g: Edges<Id>, roots: set<Id>, all: set<Id>, color: map<Id, Color>)
    requires color.Keys == all && forall x :: x in color ==> color[x] == White
    ensures Tricolor(g, roots, all, color, [], {}, {})
  {
  }
}

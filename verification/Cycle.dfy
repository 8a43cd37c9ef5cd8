/** A whole collection cycle over a region heap: mark the handle graph, count the survivors, sweep. */
module Cycle {
  import opened Common
  import opened Graphs
  import opened Marker
  import S = RegionSpec
  import opened RegionStore
  import opened RegionBounds
  import opened RegionHeap

  ghost predicate MarkedIn(hs: seq<S.Handle>, i: nat) {
    exists p :: p in hs && p.region == i
  }

  lemma {:induction false} CountIsPresence(hs: seq<S.Handle>, i: nat)
    ensures CountIn(hs, i) > 0 <==> MarkedIn(hs, i)
  {
    if hs != [] {
      var (front, p) := (hs[..|hs| - 1], hs[|hs| - 1]);
      CountIsPresence(front, i);
      assert hs == front + [p];
      if MarkedIn(hs, i) && !MarkedIn(front, i) { assert p.region == i; }
      if p.region == i { assert p in hs; }
      if MarkedIn(front, i) {
        var q :| q in front && q.region == i;
        assert q in hs;
      }
    }
  }

  /** The heap after counting the handles of `hs` as live. */
  function Counted(h: S.Heap, hs: seq<S.Handle>): (h': S.Heap)
    requires forall p :: p in hs ==> p.region < |h.regions|
    ensures |h'.regions| == |h.regions|
  {
    MarkEach(S.PreMark(h), hs)
  }

  /** After counting, the dead regions are those in use without a marked handle. */
  lemma DeadIsUnmarked(w: World, hs: seq<S.Handle>, i: nat)
    requires Store(w) && NoDups(hs) && InUse(w, hs) && i < |w.heap.regions|
    ensures forall p :: p in hs ==> p.region < |w.heap.regions|
    ensures Counted(w.heap, hs).regions[i] == w.heap.regions[i].(liveCount := Counted(w.heap, hs).regions[i].liveCount)
    ensures S.Dead(Counted(w.heap, hs).regions[i]) <==> w.heap.regions[i].state != S.Free && !MarkedIn(hs, i)
  {
    hide Store, InUse, MarkEach, S.PreMark;
    LiveCountExact(w, hs, i);
    CountIsPresence(hs, i);
  }

  /** The objects left by a cycle that counted the handles of `hs`. */
  ghost predicate Outcome(w: World, hs: seq<S.Handle>, w': World) {
    && |w'.heap.regions| == |w.heap.regions|
    && (forall o :: o in w'.objs <==> o in w.objs && MarkedIn(hs, o.region))
    && (forall i :: 0 <= i < |w.heap.regions| ==>
          (w'.heap.regions[i].state == S.Free <==> w.heap.regions[i].state == S.Free || !MarkedIn(hs, i)))
  }

  /** Sweeping after a count keeps the invariant of the store, keeps exactly the objects that share a region with a
      marked one, and leaves a region free exactly when it was free already or holds no marked handle. */
  lemma CycleOutcome(w: World, hs: seq<S.Handle>)
    requires Store(w) && NoDups(hs) && InUse(w, hs)
    ensures forall p :: p in hs ==> p.region < |w.heap.regions|
    ensures var h := Counted(w.heap, hs); var w' := World(S.Sweep(h), Survivors(h, w.objs));
      Store(w') && Outcome(w, hs, w')
  {
    hide Store, InUse, Counted, S.Sweep, Survivors, S.Dead;
    InUseInside(w, hs);
    var h := Counted(w.heap, hs);
    CountedKeeps(w, hs);
    var v := w.(heap := h);
    ReclaimKeeps(v);
    assert Step(v, Reclaim) == World(S.Sweep(h), Survivors(h, w.objs));
    SweptObjects(v);
    forall i | 0 <= i < |w.heap.regions|
      ensures S.Dead(h.regions[i]) <==> w.heap.regions[i].state != S.Free && !MarkedIn(hs, i)
      ensures h.regions[i].state == w.heap.regions[i].state
    {
      DeadIsUnmarked(w, hs, i);
    }
    SweptStates(h);
    forall o | o in w.objs ensures o.region < |w.heap.regions| && w.heap.regions[o.region].state != S.Free {
      InPlace(w, o);
    }
  }

  lemma InUseInside(w: World, hs: seq<S.Handle>)
    requires Store(w) && InUse(w, hs)
    ensures forall p :: p in hs ==> p.region < |w.heap.regions|
  {
    hide Store;
    forall p | p in hs ensures p.region < |w.heap.regions| { OwnedPlace(w, p); }
  }

  lemma InPlace(w: World, o: Obj)
    requires Store(w) && o in w.objs
    ensures o.region < |w.heap.regions| && w.heap.regions[o.region].state != S.Free
  {
    hide LaidOut;
    assert Holds(w.heap, o);
  }

  lemma CountedKeeps(w: World, hs: seq<S.Handle>)
    requires Store(w) && NoDups(hs) && InUse(w, hs)
    requires forall p :: p in hs ==> p.region < |w.heap.regions|
    ensures Store(w.(heap := Counted(w.heap, hs)))
  {
    hide Store, InUse, NoDups;
    forall i | 0 <= i < |w.heap.regions|
      ensures Counted(w.heap, hs).regions[i] == w.heap.regions[i].(liveCount := Counted(w.heap, hs).regions[i].liveCount)
    {
      hide S.Dead;
      DeadIsUnmarked(w, hs, i);
    }
    CountsKeep(w, Counted(w.heap, hs));
  }

  lemma SweptObjects(v: World)
    requires Store(v)
    ensures forall o :: o in Survivors(v.heap, v.objs) <==> o in v.objs && !InDead(v.heap, o.region)
  {
    SurvivorsAre(v.heap, v.objs);
  }

  lemma SweptStates(h: S.Heap)
    ensures |S.Sweep(h).regions| == |h.regions|
    ensures forall i :: 0 <= i < |h.regions| ==>
      (S.Sweep(h).regions[i].state == S.Free <==> h.regions[i].state == S.Free || S.Dead(h.regions[i]))
  {
  }

  /** Everything the program can reach from `roots` is the handle of an object in use. */
  ghost predicate RootsInUse(w: World, g: Edges<S.Handle>, roots: set<S.Handle>) {
    forall p :: Reachable(g, roots, p) ==> Owned(w, p)
  }

  ghost predicate LiveIn(g: Edges<S.Handle>, roots: set<S.Handle>, i: nat) {
    exists p :: Reachable(g, roots, p) && p.region == i
  }

  lemma CountOneMore(h: S.Heap, hs: seq<S.Handle>, p: S.Handle)
    requires forall q :: q in hs + [p] ==> q.region < |h.regions|
    ensures Counted(h, hs + [p]) == S.MarkLive(Counted(h, hs), p)
  {
    assert (hs + [p])[..|hs|] == hs;
  }

  /** Resets the counts, then counts each handle of `live` once, in some order. */
  method CountSurvivors(heap: RegionHeap, live: set<S.Handle>) returns (ghost marked: seq<S.Handle>)
    requires heap.Valid() && forall p :: p in live ==> p.region < |heap.regions|
    modifies heap.Parts()
    ensures heap.Valid() && NoDups(marked) && Elems(marked) == live
    ensures forall p :: p in marked ==> p in live
    ensures heap.View() == Counted(old(heap.View()), marked)
  {
    hide Counted, S.MarkLive, S.PreMark, S.Sound;
    ghost var before := heap.View();
    heap.PreMark();
    marked := [];
    NoneCounted(before);
    var todo := live;
    while todo != {}
      invariant todo <= live && forall p :: p in marked <==> p in live && p !in todo
      invariant NoDups(marked) && heap.Valid() && |before.regions| == |heap.regions|
      invariant heap.View() == Counted(before, marked)
    {
      var p :| p in todo;
      CountOneMore(before, marked, p);
      heap.MarkLive(p);
      todo := todo - {p};
      marked := marked + [p];
    }
  }

  lemma NoneCounted(h: S.Heap)
    ensures Counted(h, []) == S.PreMark(h)
  {
  }

  /** What marking found is what can be reached. */
  lemma MarkedIsLive(w: World, g: Edges<S.Handle>, roots: set<S.Handle>, hs: seq<S.Handle>, w': World)
    requires forall p :: p in hs <==> Reachable(g, roots, p)
    requires Outcome(w, hs, w')
    ensures forall i :: MarkedIn(hs, i) <==> LiveIn(g, roots, i)
    ensures forall o :: o in w.objs && Reachable(g, roots, HandleOf(o)) && HandleOf(o).region == o.region ==> o in w'.objs
  {
    hide Reachable;
    forall i ensures MarkedIn(hs, i) <==> LiveIn(g, roots, i) {
      if MarkedIn(hs, i) { var p :| p in hs && p.region == i; assert Reachable(g, roots, p); }
      if LiveIn(g, roots, i) { var p :| Reachable(g, roots, p) && p.region == i; assert p in hs; }
    }
    forall o | o in w.objs && Reachable(g, roots, HandleOf(o)) && HandleOf(o).region == o.region ensures o in w'.objs {
      assert HandleOf(o) in hs;
    }
  }

  /** The outcome of a cycle in terms of reachability. */
  ghost predicate Reclaimed(w: World, g: Edges<S.Handle>, roots: set<S.Handle>, w': World) {
    && |w'.heap.regions| == |w.heap.regions|
    && (forall o :: o in w.objs && Reachable(g, roots, HandleOf(o)) ==> o in w'.objs)
    && (forall o :: o in w'.objs <==> o in w.objs && LiveIn(g, roots, o.region))
    && (forall i :: 0 <= i < |w.heap.regions| ==>
          (w'.heap.regions[i].state == S.Free <==> w.heap.regions[i].state == S.Free || !LiveIn(g, roots, i)))
  }

  lemma CycleReclaims(w: World, g: Edges<S.Handle>, roots: set<S.Handle>, hs: seq<S.Handle>)
    requires Store(w) && RootsInUse(w, g, roots)
    requires NoDups(hs) && forall p :: p in hs <==> Reachable(g, roots, p)
    ensures forall p :: p in hs ==> p.region < |w.heap.regions|
    ensures var h := Counted(w.heap, hs); var w' := World(S.Sweep(h), Survivors(h, w.objs));
      Store(w') && Reclaimed(w, g, roots, w')
  {
    hide Store, Counted, S.Sweep, Survivors, Reachable, Owned, LiveIn, MarkedIn, NoDups;
    forall p | p in hs ensures Owned(w, p) {}
    CycleOutcome(w, hs);
    var h := Counted(w.heap, hs);
    var w' := World(S.Sweep(h), Survivors(h, w.objs));
    MarkedIsLive(w, g, roots, hs, w');
    forall o | o in w.objs ensures HandleOf(o).region == o.region { PlainHandle(w, o); }
  }

  lemma PlainHandle(w: World, o: Obj)
    requires Store(w) && o in w.objs
    ensures HandleOf(o) == S.Handle(o.region, o.offset)
  {
    hide LaidOut, Pointers;
    StoreSeparates(w);
  }

  /** One collection. Every reachable object is still in use, in place, with its bytes; a region is free afterwards
      exactly when it was free or holds no reachable handle; and the store invariant holds again, so whatever is
      allocated later overlaps none of the survivors. */
  method Collect(heap: RegionHeap, g: Edges<S.Handle>, roots: seq<S.Handle>, allIds: seq<S.Handle>, ghost objs: seq<Obj>)
    returns (freed: nat, ghost after: seq<Obj>)
    requires heap.Valid() && Store(World(heap.View(), objs))
    requires RootsInUse(World(heap.View(), objs), g, Elems(roots))
    modifies heap`current, heap.Parts()
    ensures heap.Valid() && Store(World(heap.View(), after))
    ensures Reclaimed(World(old(heap.View()), objs), g, Elems(roots), World(heap.View(), after))
    ensures S.CountFree(heap.View().regions) == S.CountFree(old(heap.View()).regions) + freed
  {
    hide Store, Counted, S.Sweep, Survivors, Reachable, Owned, Reclaimed, S.CountFree, S.CountDead, S.Sound;
    ghost var w := World(heap.View(), objs);
    var color := Mark(g, roots, allIds);
    var live := set p | p in color && color[p] == Black;
    forall p | p in live ensures p.region < |heap.regions| {
      assert Reachable(g, Elems(roots), p) && Owned(w, p);
      OwnedPlace(w, p);
    }
    ghost var marked := CountSurvivors(heap, live);
    forall p ensures p in marked <==> Reachable(g, Elems(roots), p) {
      assert p in Elems(marked) <==> p in marked;
      assert p in marked <==> p in live;
    }
    CycleReclaims(w, g, Elems(roots), marked);
    ghost var counted := heap.View();
    SameFree(w, marked);
    freed := heap.Sweep();
    after := Survivors(counted, objs);
  }

  /** Counting live objects leaves the number of free regions alone. */
  lemma SameFree(w: World, hs: seq<S.Handle>)
    requires Store(w) && NoDups(hs) && InUse(w, hs)
    requires forall p :: p in hs ==> p.region < |w.heap.regions|
    ensures S.CountFree(Counted(w.heap, hs).regions) == S.CountFree(w.heap.regions)
  {
    hide Store, InUse, NoDups, S.Dead, S.CountFree;
    forall i | 0 <= i < |w.heap.regions| ensures Counted(w.heap, hs).regions[i].state == w.heap.regions[i].state {
      DeadIsUnmarked(w, hs, i);
    }
    SameStates(w.heap.regions, Counted(w.heap, hs).regions);
  }

  lemma {:induction false} SameStates(rs: seq<S.Region>, rs': seq<S.Region>)
    requires |rs'| == |rs| && forall i :: 0 <= i < |rs| ==> rs'[i].state == rs[i].state
    ensures S.CountFree(rs') == S.CountFree(rs)
  {
    if rs != [] { SameStates(rs[..|rs| - 1], rs'[..|rs| - 1]); }
  }

  // ---- survivors and later allocations ----

  /** The store after a cycle that counted the handles of `hs`. */
  ghost function AfterCycle(w: World, hs: seq<S.Handle>): (w': World)
    requires Store(w) && NoDups(hs) && InUse(w, hs)
    ensures Store(w')
  {
    CycleOutcome(w, hs);
    var h := Counted(w.heap, hs);
    World(S.Sweep(h), Survivors(h, w.objs))
  }

  /** An object that could be reached when the cycle started keeps its place and its bytes through the cycle and through
      whatever is allocated, written, marked and swept afterwards, and shares no byte with any other object then in
      use, until it is written itself or a later sweep finds its region dead. */
  lemma ReachableOutlives(w: World, g: Edges<S.Handle>, roots: set<S.Handle>, hs: seq<S.Handle>, ops: seq<Op>, o: Obj)
    requires Store(w) && RootsInUse(w, g, roots)
    requires NoDups(hs) && InUse(w, hs) && forall p :: p in hs <==> Reachable(g, roots, p)
    requires o in w.objs && Reachable(g, roots, HandleOf(o))
    requires LegalRun(AfterCycle(w, hs), ops)
    requires SparedRun(AfterCycle(w, hs), ops, o)
    ensures var later := Run(AfterCycle(w, hs), ops);
      o in later.objs && Holds(later.heap, o) && forall q :: q in later.objs && q != o ==> Disjoint(o, q)
  {
    hide Store, Counted, S.Sweep, Survivors, Reachable, Owned, LiveIn, MarkedIn, NoDups;
    hide LegalRun, SparedRun, Run, RootsInUse;
    CycleReclaims(w, g, roots, hs);
    Undisturbed(AfterCycle(w, hs), ops, o);
  }
}

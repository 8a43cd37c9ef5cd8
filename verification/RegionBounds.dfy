/** How many objects a region can hold, what alignment costs, and why live counts do not overflow. */
module RegionBounds {
  import opened Common
  import opened RegionSpec
  import opened RegionStore

  const SLOTS: nat := REGION_SIZE / ALIGN

  // ---- objects per region ----

  function In(objs: seq<Obj>, i: nat): seq<Obj> {
    if objs == [] then []
    else In(objs[..|objs| - 1], i) + (if objs[|objs| - 1].region == i then [objs[|objs| - 1]] else [])
  }

  function NonEmpty(objs: seq<Obj>): nat {
    if objs == [] then 0
    else NonEmpty(objs[..|objs| - 1]) + (if objs[|objs| - 1].content != [] then 1 else 0)
  }

  function Bytes(objs: seq<Obj>): nat {
    if objs == [] then 0 else Bytes(objs[..|objs| - 1]) + |objs[|objs| - 1].content|
  }

  lemma Counted(objs: seq<Obj>, o: Obj)
    ensures NonEmpty(objs + [o]) == NonEmpty(objs) + if o.content != [] then 1 else 0
    ensures Bytes(objs + [o]) == Bytes(objs) + |o.content|
  {
    assert (objs + [o])[..|objs|] == objs;
  }

  /** The latest object, seen from region `i`. */
  lemma Latest(objs: seq<Obj>, i: nat)
    requires LaidOut(objs) && objs != []
    ensures var (before, o) := (objs[..|objs| - 1], objs[|objs| - 1]);
      && LaidOut(before)
      && (if o.region == i then In(objs, i) == In(before, i) + [o] && Bump(objs, i) == o.offset + |o.content|
                                && o.offset == AlignUp(Bump(before, i))
          else In(objs, i) == In(before, i) && Bump(objs, i) == Bump(before, i))
  {
    hide AlignUp;
  }

  /** A non-empty object at an aligned offset pushes the next one at least 8 bytes further. */
  lemma NextSlot(offset: nat, len: nat)
    requires offset % ALIGN == 0 && offset + len <= REGION_SIZE
    ensures AlignUp(offset + len) >= offset + (if len > 0 then ALIGN else 0)
  {
    hide AlignUp;
    RoundsUp(offset + len);
  }

  /** Each non-empty object takes at least 8 bytes of its region, and each object wastes at most 7. */
  lemma {:induction false} Packing(objs: seq<Obj>, i: nat)
    requires LaidOut(objs) && Fits(objs)
    ensures ALIGN * NonEmpty(In(objs, i)) <= AlignUp(Bump(objs, i))
    ensures Bytes(In(objs, i)) <= Bump(objs, i) <= Bytes(In(objs, i)) + 7 * |In(objs, i)|
  {
    hide AlignUp, LaidOut;
    if objs == [] {
      RoundsUp(0);
    } else {
      hide Bump, In, NonEmpty, Bytes;
      var (before, o) := (objs[..|objs| - 1], objs[|objs| - 1]);
      Latest(objs, i);
      Packing(before, i);
      if o.region == i {
        BumpFits(before, i);
        RoundsUp(Bump(before, i));
        Counted(In(before, i), o);
        NextSlot(o.offset, |o.content|);
      }
    }
  }

  /** In every reachable heap a region holds at most 4096 non-empty objects, and its bump pointer is at most 7 bytes
      per object beyond the bytes its objects asked for. */
  lemma RegionBound(w: World, i: nat)
    requires Store(w) && i < |w.heap.regions|
    ensures NonEmpty(In(w.objs, i)) <= SLOTS
    ensures Bytes(In(w.objs, i)) <= w.heap.regions[i].offset <= Bytes(In(w.objs, i)) + 7 * |In(w.objs, i)|
  {
    hide AlignUp, Bump, LaidOut;
    Packing(w.objs, i);
    BumpFits(w.objs, i);
    RoundsUp(Bump(w.objs, i));
  }

  // ---- live counts ----

  function CountIn(hs: seq<Handle>, i: nat): nat {
    if hs == [] then 0
    else CountIn(hs[..|hs| - 1], i) + (if hs[|hs| - 1].region == i then 1 else 0)
  }

  function MarkEach(h: Heap, hs: seq<Handle>): (h': Heap)
    requires forall p :: p in hs ==> p.region < |h.regions|
    ensures |h'.regions| == |h.regions| && h'.current == h.current
  {
    if hs == [] then h else MarkLive(MarkEach(h, hs[..|hs| - 1]), hs[|hs| - 1])
  }

  lemma OneMoreModulo(a: nat)
    ensures (a % 0x1_0000_0000 + 1) % 0x1_0000_0000 == (a + 1) % 0x1_0000_0000
  {
  }

  /** Marking counts handles per region, modulo the width of the counter, and touches nothing else. */
  lemma {:induction false} MarkEachCounts(h: Heap, hs: seq<Handle>, i: nat)
    requires forall p :: p in hs ==> p.region < |h.regions|
    requires i < |h.regions|
    ensures MarkEach(h, hs).regions[i] == h.regions[i].(liveCount := (h.regions[i].liveCount + CountIn(hs, i)) % 0x1_0000_0000)
  {
    if hs != [] {
      MarkEachCounts(h, hs[..|hs| - 1], i);
      OneMoreModulo(h.regions[i].liveCount + CountIn(hs[..|hs| - 1], i));
    }
  }

  function HandlesIn(hs: seq<Handle>, i: nat): set<Handle> {
    set p | p in hs && p.region == i
  }

  lemma {:induction false} CountIsSize(hs: seq<Handle>, i: nat)
    requires NoDups(hs)
    ensures CountIn(hs, i) == |HandlesIn(hs, i)|
  {
    if hs == [] {
      assert HandlesIn(hs, i) == {};
    } else {
      var (front, p) := (hs[..|hs| - 1], hs[|hs| - 1]);
      CountIsSize(front, i);
      assert hs == front + [p];
      assert HandlesIn(hs, i) == HandlesIn(front, i) + if p.region == i then {p} else {};
    }
  }

  /** NoDups aligned offsets below `8 * m` are at most `m`. */
  lemma {:induction false} AlignedFit(s: set<Handle>, i: nat, m: nat)
    requires forall p :: p in s ==> p.region == i && p.offset % ALIGN == 0 && p.offset < ALIGN * m
    ensures |s| <= m
  {
    if m == 0 {
      assert s == {} by { forall p | p in s ensures false {} }
    } else if p :| p in s && p.offset == ALIGN * (m - 1) {
      forall q | q in s - {p} ensures q.offset < ALIGN * (m - 1) {}
      AlignedFit(s - {p}, i, m - 1);
    } else {
      forall q | q in s ensures q.offset < ALIGN * (m - 1) { assert q.offset != ALIGN * (m - 1); }
      AlignedFit(s, i, m - 1);
    }
  }

  /** Every handle in `hs` belongs to an object in use. */
  ghost predicate InUse(w: World, hs: seq<Handle>) {
    forall p :: p in hs ==> Owned(w, p)
  }

  ghost predicate Owned(w: World, p: Handle) {
    exists o :: o in w.objs && HandleOf(o) == p
  }

  ghost predicate OwnedNonEmpty(w: World, p: Handle) {
    exists o :: o in w.objs && HandleOf(o) == p && o.content != []
  }

  lemma OwnedPlace(w: World, p: Handle)
    requires Store(w) && Owned(w, p)
    ensures p.region < |w.heap.regions| && w.heap.regions[p.region].state != Free
    ensures p.offset % ALIGN == 0 && p.offset <= REGION_SIZE
    ensures OwnedNonEmpty(w, p) ==> p.offset < REGION_SIZE
  {
    hide AlignUp, LaidOut, Bump;
    StoreSeparates(w);
    var o :| o in w.objs && HandleOf(o) == p;
    assert Holds(w.heap, o);
    if OwnedNonEmpty(w, p) {
      var q :| q in w.objs && HandleOf(q) == p && q.content != [];
      assert Holds(w.heap, q);
    }
  }

  /** Marking each surviving handle once counts them exactly: at most 4096 for non-empty objects in a region, one more
      when an empty object sits at its very end, so the 32-bit counter never wraps around. */
  lemma LiveCountExact(w: World, hs: seq<Handle>, i: nat)
    requires Store(w) && NoDups(hs) && InUse(w, hs) && i < |w.heap.regions|
    ensures forall p :: p in hs ==> p.region < |w.heap.regions|
    ensures CountIn(hs, i) <= SLOTS + 1
    ensures MarkEach(PreMark(w.heap), hs).regions[i] == w.heap.regions[i].(liveCount := CountIn(hs, i))
    ensures (forall p :: p in hs ==> OwnedNonEmpty(w, p)) ==> CountIn(hs, i) <= SLOTS
  {
    hide AlignUp, LaidOut, Bump, Store, Owned, OwnedNonEmpty;
    forall p | p in hs
      ensures p.region < |w.heap.regions| && p.offset % ALIGN == 0 && p.offset <= REGION_SIZE
      ensures OwnedNonEmpty(w, p) ==> p.offset < REGION_SIZE
    {
      OwnedPlace(w, p);
    }
    CountIsSize(hs, i);
    AlignedFit(HandlesIn(hs, i), i, SLOTS + 1);
    if forall p :: p in hs ==> OwnedNonEmpty(w, p) { AlignedFit(HandlesIn(hs, i), i, SLOTS); }
    MarkEachCounts(PreMark(w.heap), hs, i);
  }
}
